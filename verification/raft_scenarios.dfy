/** Building blocks for concrete runs: elections, proposals and requests in a cluster of three. */
module Scenarios {
  import opened GroupFsm
  import opened RaftLogs
  import opened RaftNodes
  import opened RaftSystem

  const NOWHERE := World(map[], {}, Past(map[], map[], {}, map[], map[]))

  function Last(run: seq<World>): World {
    if run == [] then NOWHERE else run[|run| - 1]
  }

  // The one node that a step changes, and what it adds to the network.
  lemma NextOf(w: World, st: Step)
    requires Enabled(w, st)
    ensures Next(w, st).nodes == w.nodes[Actor(st) := NodeAfter(w.nodes[Actor(st)], st)]
    ensures Next(w, st).net == w.net + Sent(w.nodes[Actor(st)], st)
  {
  }

  // The run so far, one step longer; what was lawful so far stays so if the step is.
  lemma Extend(run: seq<World>, steps: seq<Step>, st: Step) returns (run': seq<World>, steps': seq<Step>)
    requires IsRun(run, steps) && Enabled(Last(run), st)
    ensures IsRun(run', steps') && run'[0] == run[0] && Last(run') == Next(Last(run), st)
    ensures run' == run + [Last(run')] && steps' == steps + [st]
    ensures SafeCounts(run, steps) && SafeCount(Last(run), st) ==> SafeCounts(run', steps')
    ensures TimelyTakes(run, steps) && TimelyTake(Last(run), st) ==> TimelyTakes(run', steps')
    ensures MatchingDelivers(run, steps) && MatchingDeliver(Last(run), st) ==> MatchingDelivers(run', steps')
    ensures LeadingSends(run, steps) && LeadingSend(Last(run), st) ==> LeadingSends(run', steps')
  {
    hide Next, Enabled, SafeCount, TimelyTake, MatchingDeliver, LeadingSend;
    run', steps' := run + [Next(Last(run), st)], steps + [st];
    forall k | 0 <= k < |steps'|
      ensures run'[k] == (if k < |steps| then run[k] else Last(run)) && steps'[k] == (if k < |steps| then steps[k] else st)
    {}
  }

  // All of H1, H2, H3 and H6, for a run and for a step.
  ghost predicate Lawful(run: seq<World>, steps: seq<Step>) {
    && IsRun(run, steps) && SafeCounts(run, steps) && TimelyTakes(run, steps)
    && MatchingDelivers(run, steps) && LeadingSends(run, steps)
  }

  predicate LawfulStep(w: World, st: Step)
    requires Enabled(w, st)
  {
    SafeCount(w, st) && TimelyTake(w, st) && MatchingDeliver(w, st) && LeadingSend(w, st)
  }

  // No append requests and replies: each step is an action of its own.
  ghost predicate AllLocal(steps: seq<Step>) {
    forall st <- steps :: Local(st)
  }

  predicate Local(st: Step) {
    !st.Send? && !st.Deliver? && !st.Ack?
  }

  lemma ExtendLawful(run: seq<World>, steps: seq<Step>, st: Step) returns (run': seq<World>, steps': seq<Step>)
    requires Lawful(run, steps) && Enabled(Last(run), st) && LawfulStep(Last(run), st)
    ensures Lawful(run', steps') && run'[0] == run[0]
    ensures Last(run').nodes == Last(run).nodes[Actor(st) := NodeAfter(Last(run).nodes[Actor(st)], st)]
    ensures Last(run').net == Last(run).net + Sent(Last(run).nodes[Actor(st)], st)
    ensures run' == run + [Last(run')] && steps' == steps + [st]
    ensures AllLocal(steps) && Local(st) ==> AllLocal(steps')
  {
    hide IsRun, Next, Enabled, SafeCounts, TimelyTakes, MatchingDelivers, LeadingSends;
    run', steps' := Extend(run, steps, st);
    NextOf(Last(run), st);
  }

  // Two logs have an entry of the same index and term, but differ before it or in it.
  predicate Mismatch(a: Log, b: Log, i: int) {
    0 <= i < |a| && i < |b| && a[i].term == b[i].term && a[..i + 1] != b[..i + 1]
  }

  function FreshWorld(ids: set<int>): World {
    World(map i | i in ids :: InitialNode(i, ids - {i}), {}, Past(map[], map[], {}, map[0 := [SENTINEL]], map[]))
  }

  predicate Untouched(w: World, i: int) {
    i in w.nodes && w.nodes[i] == InitialNode(i, w.nodes.Keys - {i})
  }

  lemma Started(ids: set<int>) returns (run: seq<World>, steps: seq<Step>)
    requires NONE !in ids
    ensures Lawful(run, steps) && Init(run[0]) && Last(run) == run[0] && steps == []
    ensures run[0].nodes.Keys == ids && run[0].net == {} && forall i <- ids :: Untouched(run[0], i)
  {
    run, steps := [FreshWorld(ids)], [];
    assert run[0].nodes.Keys == ids;
  }

  // Three nodes that know each other.
  predicate Trio(w: World, a: int, b: int, c: int) {
    && a != b && b != c && a != c && w.nodes.Keys == {a, b, c}
    && Placed(w, a, {b, c}) && Placed(w, b, {a, c}) && Placed(w, c, {a, b})
  }

  predicate Placed(w: World, i: int, peers: set<int>) {
    i in w.nodes && w.nodes[i].id == i && w.nodes[i].peers == peers && w.nodes[i].log != []
  }

  // A trio stays one when nodes change no more than their state and keep a log.
  lemma TrioStays(w: World, w': World, a: int, b: int, c: int)
    requires Trio(w, a, b, c) && w'.nodes.Keys == w.nodes.Keys
    requires forall i <- w.nodes :: w'.nodes[i].id == w.nodes[i].id && w'.nodes[i].peers == w.nodes[i].peers && w'.nodes[i].log != []
    ensures Trio(w', a, b, c)
  {
  }

  function Standing(n: NodeState): NodeState {
    n.(ballot := Ballot(Candidate, n.currentTerm() + 1, n.id, Election(n.currentTerm() + 1, {}, 1, false)))
  }

  function Elected(n: NodeState): NodeState {
    BecomeLeader(n.(ballot := Ballot(Candidate, n.currentTerm() + 1, n.id, Election(n.currentTerm() + 1, {}, 2, true))))
  }

  function Voted(n: NodeState, c: int, t: int): NodeState {
    n.(ballot := n.ballot.(role := Follower, currentTerm := t, votedFor := c))
  }

  // A node between elections, which may start another.
  predicate Idle(n: NodeState) {
    !n.Leads() && n.ballot.election.pending == {}
  }

  // A leader between elections with nothing left to append.
  predicate Ready(n: NodeState) {
    n.Leads() && n.ballot.election.pending == {} && n.proposals == []
  }

  // Node c stands and asks v, and v votes for it.
  lemma VoteOf(run: seq<World>, steps: seq<Step>, c: int, v: int, u: int) returns (run': seq<World>, steps': seq<Step>)
    requires Lawful(run, steps) && Trio(Last(run), c, v, u)
    requires var (n, m) := (Last(run).nodes[c], Last(run).nodes[v]);
             Idle(n) && m.currentTerm() <= n.currentTerm() && UpToDate(|n.log| - 1, LastTermOf(n.log), m.log)
    ensures AllLocal(steps) ==> AllLocal(steps')
    ensures Lawful(run', steps') && run'[0] == run[0]
    ensures var (w, w') := (Last(run), Last(run'));
            var t := w.nodes[c].currentTerm() + 1;
            && w'.nodes == w.nodes[c := BeginElection(w.nodes[c])][v := Voted(w.nodes[v], c, t)]
            && w.net <= w'.net && VoteReply(c, v, t, t, true) in w'.net
    ensures Trio(Last(run'), c, v, u)
  {
    hide Lawful, AllLocal, Last;
    var w := Last(run);
    var n, t := w.nodes[c], w.nodes[c].currentTerm() + 1;
    run', steps' := ExtendLawful(run, steps, Timeout(c));
    assert Last(run').nodes == w.nodes[c := BeginElection(n)];
    run', steps' := ExtendLawful(run', steps', Ask(c, v));
    var m := VoteRequest(c, v, t, |n.log| - 1, LastTermOf(n.log));
    assert Last(run').nodes == w.nodes[c := BeginElection(n)] && m in Last(run').net;
    run', steps' := ExtendLawful(run', steps', Answer(m));
    TrioStays(w, Last(run'), c, v, u);
  }

  lemma CountWins(n: NodeState, v: int, u: int)
    requires v != u && n.peers == {v, u}
    ensures var (n1, t) := (BeginElection(n), n.currentTerm() + 1);
            && WinsWith(n1, t, true) && DropVote(CountVote(n1, v, t, true), u) == Elected(n)
            && CountVote(n1, v, t, true).ballot.election.pending == {u}
            && n1.id == n.id && n1.ballot.election.term == t == n1.currentTerm() && n1.ballot.election.pending == {v, u}
  {
    assert {v, u} - {v} == {u} && {u} - {u} == {};
    assert |{v, u}| == 2;
  }

  lemma ElectsInTrio(w: World, w': World, c: int, v: int, u: int)
    requires Trio(w, c, v, u)
    requires w'.nodes == w.nodes[c := Elected(w.nodes[c])][v := Voted(w.nodes[v], c, w.nodes[c].currentTerm() + 1)]
    ensures Trio(w', c, v, u)
  {
    hide Elected, Voted;
    ElectedIs(w.nodes[c]);
    VotedIs(w.nodes[v], c, w.nodes[c].currentTerm() + 1);
    TrioStays(w, w', c, v, u);
  }

  // With v's vote c is elected, in the next term.
  lemma Elect(run: seq<World>, steps: seq<Step>, c: int, v: int, u: int) returns (run': seq<World>, steps': seq<Step>)
    requires Lawful(run, steps) && Trio(Last(run), c, v, u)
    requires var (n, m) := (Last(run).nodes[c], Last(run).nodes[v]);
             Idle(n) && m.currentTerm() <= n.currentTerm() && UpToDate(|n.log| - 1, LastTermOf(n.log), m.log)
    ensures AllLocal(steps) ==> AllLocal(steps')
    ensures Lawful(run', steps') && run'[0] == run[0] && Last(run).net <= Last(run').net
    ensures var (w, w') := (Last(run), Last(run'));
            w'.nodes == w.nodes[c := Elected(w.nodes[c])][v := Voted(w.nodes[v], c, w.nodes[c].currentTerm() + 1)]
    ensures Trio(Last(run'), c, v, u)
    ensures var t := Last(run).nodes[c].currentTerm() + 1; VoteReply(c, v, t, t, true) in Last(run').net
  {
    hide Lawful, AllLocal, Last, UpToDate, CountVote, Elected, Voted, BeginElection, WinsWith;
    var w := Last(run);
    var n, t := w.nodes[c], w.nodes[c].currentTerm() + 1;
    run', steps' := VoteOf(run, steps, c, v, u);
    CountWins(n, v, u);
    assert Last(run').nodes[c] == BeginElection(n);
    run', steps' := ExtendLawful(run', steps', Count(VoteReply(c, v, t, t, true)));
    assert Last(run').nodes[c] == CountVote(BeginElection(n), v, t, true);
    run', steps' := ExtendLawful(run', steps', Drop(c, u));
    assert Last(run').nodes == w.nodes[c := Elected(n)][v := Voted(w.nodes[v], c, t)];
    ElectsInTrio(w, Last(run'), c, v, u);
  }

  // What an elected node is like, and one that voted, and one that stood in vain.
  lemma ElectedIs(n: NodeState)
    ensures var n' := Elected(n);
            && n'.id == n.id && n'.peers == n.peers && n'.log == n.log && n'.proposals == n.proposals
            && n'.Leads() && n'.currentTerm() == n.currentTerm() + 1 && n'.commitIndex == n.commitIndex
            && n'.lastApplied == n.lastApplied && n'.groups == n.groups
            && n'.ballot.election.pending == {}
            && forall p <- n.peers :: p in n'.nextIndex && n'.nextIndex[p] == |n.log| && p in n'.matchIndex && n'.matchIndex[p] == 0
  {
  }

  lemma VotedIs(n: NodeState, c: int, t: int)
    ensures var n' := Voted(n, c, t);
            && n'.id == n.id && n'.peers == n.peers && n'.log == n.log && n'.commitIndex == n.commitIndex
            && !n'.Leads() && n'.currentTerm() == t && n'.ballot.election == n.ballot.election
  {
  }

  lemma StandingIs(n: NodeState)
    ensures var n' := Standing(n);
            && n'.id == n.id && n'.peers == n.peers && n'.log == n.log && n'.proposals == n.proposals
            && Idle(n') && n'.currentTerm() == n.currentTerm() + 1 && n'.commitIndex == n.commitIndex
            && n'.lastApplied == n.lastApplied && n'.groups == n.groups
  {
  }

  lemma DropsFail(n: NodeState, v: int, u: int)
    requires v != u && n.peers == {v, u}
    ensures BeginElection(n).ballot.election.pending == {v, u} && DropVote(BeginElection(n), v).ballot.election.pending == {u}
    ensures DropVote(DropVote(BeginElection(n), v), u) == Standing(n)
    ensures Standing(n).id == n.id && Standing(n).peers == n.peers && Standing(n).log == n.log
  {
    assert {v, u} - {v} == {u} && {u} - {u} == {};
  }

  // Node c stands in vain.
  lemma Fail(run: seq<World>, steps: seq<Step>, c: int, v: int, u: int) returns (run': seq<World>, steps': seq<Step>)
    requires Lawful(run, steps) && Trio(Last(run), c, v, u) && Idle(Last(run).nodes[c])
    ensures AllLocal(steps) ==> AllLocal(steps')
    ensures Lawful(run', steps') && run'[0] == run[0] && Last(run).net <= Last(run').net
    ensures Last(run').nodes == Last(run).nodes[c := Standing(Last(run).nodes[c])] && Trio(Last(run'), c, v, u)
  {
    hide Lawful, AllLocal, Last, BeginElection, DropVote, Standing;
    var n := Last(run).nodes[c];
    DropsFail(n, v, u);
    run', steps' := ExtendLawful(run, steps, Timeout(c));
    assert Last(run').nodes[c] == BeginElection(n);
    run', steps' := ExtendLawful(run', steps', Drop(c, v));
    assert Last(run').nodes[c] == DropVote(BeginElection(n), v);
    run', steps' := ExtendLawful(run', steps', Drop(c, u));
    TrioStays(Last(run), Last(run'), c, v, u);
  }

  // Node i is asked to propose a command.
  lemma Asked(run: seq<World>, steps: seq<Step>, i: int, x: Command) returns (run': seq<World>, steps': seq<Step>)
    requires Lawful(run, steps) && i in Last(run).nodes && |Last(run).nodes[i].proposals| < PROPOSE_CAPACITY
    ensures AllLocal(steps) ==> AllLocal(steps')
    ensures Lawful(run', steps') && run'[0] == run[0] && Last(run').net == Last(run).net
    ensures Last(run').nodes == Last(run).nodes[i := Propose(Last(run).nodes[i], x)]
  {
    hide Lawful, AllLocal, Last, Propose;
    run', steps' := ExtendLawful(run, steps, Submit(i, x));
  }

  // Leader l takes up a command and appends it.
  lemma Grow(run: seq<World>, steps: seq<Step>, l: int, x: Command) returns (run': seq<World>, steps': seq<Step>)
    requires Lawful(run, steps) && l in Last(run).nodes
    requires Ready(Last(run).nodes[l])
    ensures AllLocal(steps) ==> AllLocal(steps')
    ensures Lawful(run', steps') && run'[0] == run[0] && Last(run').net == Last(run).net
    ensures var n := Last(run).nodes[l];
            Last(run').nodes == Last(run).nodes[l := n.(log := n.log + [LogEntry(n.currentTerm(), |n.log|, x)])]
  {
    hide Lawful, AllLocal, Last;
    var n := Last(run).nodes[l];
    run', steps' := ExtendLawful(run, steps, Submit(l, x));
    assert Last(run').nodes[l].proposals == [LogEntry(n.currentTerm(), 0, x)];
    run', steps' := ExtendLawful(run', steps', Take(l));
    assert Last(run').nodes[l].proposals == [];
  }

  lemma GrowInTrio(run: seq<World>, steps: seq<Step>, l: int, b: int, c: int) returns (run': seq<World>, steps': seq<Step>)
    requires Lawful(run, steps) && Trio(Last(run), l, b, c)
    requires Ready(Last(run).nodes[l])
    ensures AllLocal(steps) ==> AllLocal(steps')
    ensures Lawful(run', steps') && run'[0] == run[0] && Last(run').net == Last(run).net && Trio(Last(run'), l, b, c)
    ensures var n := Last(run).nodes[l];
            Last(run').nodes == Last(run).nodes[l := n.(log := n.log + [LogEntry(n.currentTerm(), |n.log|, Noop)])]
  {
    hide Lawful, AllLocal, Last;
    run', steps' := Grow(run, steps, l, Noop);
    TrioStays(Last(run), Last(run'), l, b, c);
  }

  // Leader l snapshots its log for p.
  lemma Cut(run: seq<World>, steps: seq<Step>, l: int, p: int) returns (run': seq<World>, steps': seq<Step>)
    requires Lawful(run, steps) && l in Last(run).nodes
    requires var n := Last(run).nodes[l]; n.Leads() && n.id == l && p in n.peers && p in n.nextIndex && n.nextIndex[p] >= 0
    ensures Lawful(run', steps') && run'[0] == run[0] && Last(run').nodes == Last(run).nodes
    ensures Last(run').net == Last(run).net + {SnapshotFor(Last(run).nodes[l], p)}
  {
    hide Lawful, Last, SnapshotFor;
    run', steps' := ExtendLawful(run, steps, Send(l, p));
    assert Last(run').nodes == Last(run).nodes[l := Last(run).nodes[l]];
  }

  // An append request is handled that is refused, or names the right term.
  lemma Handle(run: seq<World>, steps: seq<Step>, m: Message) returns (run': seq<World>, steps': seq<Step>)
    requires Lawful(run, steps) && m in Last(run).net && m.AppendRequest? && m.prevIndex >= 0 && m.to in Last(run).nodes
    requires var n := Last(run).nodes[m.to]; Accepts(n, m) ==> n.log[m.prevIndex].term == m.prevTerm
    ensures Lawful(run', steps') && run'[0] == run[0]
    ensures Last(run').nodes == Last(run).nodes[m.to := AnswerAppend(Last(run).nodes[m.to], m).0]
    ensures Last(run').net == Last(run).net + {AnswerAppend(Last(run).nodes[m.to], m).1}
  {
    hide Lawful, Last, AnswerAppend;
    run', steps' := ExtendLawful(run, steps, Deliver(m));
  }

  // A run of actions that meets H1, H2 and H6.
  ghost predicate PromptActions(run: seq<World>, actions: seq<Action>) {
    IsAtomicRun(run, actions) && forall k :: 0 <= k < |actions| ==> Prompt(run[k], actions[k])
  }

  // A run without append messages is one of actions.
  lemma StepsAreActions(run: seq<World>, steps: seq<Step>) returns (actions: seq<Action>)
    requires Lawful(run, steps) && AllLocal(steps)
    ensures PromptActions(run, actions) && forall k :: 0 <= k < |actions| ==> actions[k].Do?
  {
    hide Next, Enabled, SafeCount, TimelyTake, MatchingDeliver, LeadingSend;
    actions := seq(|steps|, i requires 0 <= i < |steps| => Do(steps[i]));
    forall k | 0 <= k < |actions|
      ensures Possible(run[k], actions[k]) && run[k + 1] == After(run[k], actions[k]) && Prompt(run[k], actions[k])
    {
      assert Local(steps[k]) && Enabled(run[k], steps[k]);
      assert SafeCount(run[k], steps[k]) && TimelyTake(run[k], steps[k]);
    }
  }

  lemma ExtendActions(run: seq<World>, actions: seq<Action>, a: Action) returns (run': seq<World>, actions': seq<Action>)
    requires PromptActions(run, actions) && Possible(Last(run), a) && Prompt(Last(run), a)
    ensures PromptActions(run', actions') && run' == run + [After(Last(run), a)] && actions' == actions + [a]
    ensures run'[0] == run[0] && Last(run') == After(Last(run), a)
  {
    hide After, Possible, Prompt;
    run', actions' := run + [After(Last(run), a)], actions + [a];
    forall k | 0 <= k < |actions'|
      ensures run'[k] == (if k < |actions| then run[k] else Last(run)) && actions'[k] == (if k < |actions| then actions[k] else a)
    {}
  }
}
