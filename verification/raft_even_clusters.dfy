/**
 That the size of the cluster matters: in every even cluster of four nodes or more, half of the nodes is
 enough to elect and to commit.  The safety theorems hold exactly for the other sizes.
 */
module EvenClusters {
  import opened Basics
  import opened GroupFsm
  import opened RaftLogs
  import opened RaftNodes
  import opened RaftSystem
  import opened ElectionSafety
  import opened LogMatching
  import opened OneLeader
  import opened Replication
  import opened Completeness
  import opened RunSafety
  import opened Scenarios
  import opened Electability
  import opened ElectionSize

  // -----  Log matching  -----

  ghost predicate LogsSafe(ids: set<int>) {
    forall run: seq<World>, steps: seq<Step>, a: int, b: int, i: int ::
      Lawful(run, steps) && Init(run[0]) && run[0].nodes.Keys == ids && a in Last(run).nodes && b in Last(run).nodes ==>
        !Mismatch(Last(run).nodes[a].log, Last(run).nodes[b].log, i)
  }

  // Two leaders of one term each append an entry of their own.
  lemma TwoEntries(ids: set<int>) returns (run: seq<World>, steps: seq<Step>, a: int, b: int)
    requires NONE !in ids && !SafeSize(|ids|)
    ensures Lawful(run, steps) && Init(run[0]) && run[0].nodes.Keys == ids && a in Last(run).nodes && b in Last(run).nodes
    ensures Mismatch(Last(run).nodes[a].log, Last(run).nodes[b].log, 1)
  {
    hide Lawful, Init, Last;
    var va, vb;
    run, steps, a, b, va, vb := TwoLeaders(ids);
    run, steps := Grow(run, steps, a, Noop);
    run, steps := Grow(run, steps, b, Undecodable);
    var x, y := Last(run).nodes[a].log, Last(run).nodes[b].log;
    assert x == [SENTINEL, LogEntry(1, 1, Noop)] && y == [SENTINEL, LogEntry(1, 1, Undecodable)];
    assert x[..2][1] != y[..2][1];
  }

  /** Exactly for which clusters logs match in all runs under H1, H2, H3 and H6. */
  lemma LogsSafeIff(ids: set<int>)
    requires NONE !in ids
    ensures LogsSafe(ids) <==> SafeSize(|ids|)
  {
    if SafeSize(|ids|) {
      forall run: seq<World>, steps: seq<Step>, a: int, b: int, i: int
        | Lawful(run, steps) && Init(run[0]) && run[0].nodes.Keys == ids && a in Last(run).nodes && b in Last(run).nodes
        ensures !Mismatch(Last(run).nodes[a].log, Last(run).nodes[b].log, i)
      {
        NoMismatch(run, steps, a, b, i);
      }
    } else {
      var run, steps, a, b := TwoEntries(ids);
    }
  }

  lemma NoMismatch(run: seq<World>, steps: seq<Step>, a: int, b: int, i: int)
    requires Lawful(run, steps) && Init(run[0]) && SafeSize(|run[0].nodes.Keys|)
    requires a in Last(run).nodes && b in Last(run).nodes
    ensures !Mismatch(Last(run).nodes[a].log, Last(run).nodes[b].log, i)
  {
    hide Init, SafeCounts, TimelyTakes, MatchingDelivers, LeadingSends;
    var x, y := Last(run).nodes[a].log, Last(run).nodes[b].log;
    assert |run[0].nodes.Keys| == |run[0].nodes|;
    if 0 <= i < |x| && i < |y| && x[i].term == y[i].term {
      LogsMatch(run, steps, |run| - 1, a, b, i);
    }
  }

  // -----  Runs with atomic exchanges  -----

  ghost predicate CarefulActions(run: seq<World>, actions: seq<Action>) {
    IsAtomicRun(run, actions) && CarefulRun(run, actions)
  }

  lemma CarefulIfVoting(run: seq<World>, steps: seq<Step>) returns (actions: seq<Action>)
    requires Voting(run, steps)
    ensures CarefulActions(run, actions)
  {
    hide Lawful, AllLocal, Prompt, Possible, After;
    actions := StepsAreActions(run, steps);
  }

  lemma Act(run: seq<World>, actions: seq<Action>, a: Action) returns (run': seq<World>, actions': seq<Action>)
    requires CarefulActions(run, actions) && Possible(Last(run), a) && Careful(Last(run), a)
    ensures CarefulActions(run', actions') && run'[0] == run[0] && Last(run') == After(Last(run), a)
    ensures forall l :: OnlyLeader(run, l) && OnlyLeads(Last(run'), l) ==> OnlyLeader(run', l)
  {
    hide After, Possible, Careful, Prompt, OnlyLeads;
    run', actions' := run + [After(Last(run), a)], actions + [a];
    forall k | 0 <= k < |actions'|
      ensures run'[k] == (if k < |actions| then run[k] else Last(run)) && actions'[k] == (if k < |actions| then actions[k] else a)
    {}
  }

  // The log of a leader of term 1 with the one command x.
  function LogOf(x: Command): Log {
    [SENTINEL, LogEntry(1, 1, x)]
  }

  // c has appended x, and done more only with these peers: they have x, and enough of them have committed it.
  ghost predicate Spreads(n: NodeState, x: Command, done: set<int>) {
    && n.Leads() && n.currentTerm() == 1 && n.log == LogOf(x) && 0 <= n.commitIndex <= 1
    && n.lastApplied == 0 && n.groups == map[] && n.matchIndex.Keys <= n.peers && done <= n.peers
    && (forall p <- n.peers :: p in n.nextIndex && p in n.matchIndex)
    && (forall p <- n.peers :: if p in done then n.matchIndex[p] == 1 else n.nextIndex[p] == 1)
    && (done != {} && 1 + |done| >= Majority(n) ==> n.commitIndex == 1)
  }

  // The leader appends x.
  lemma Starts(run: seq<World>, actions: seq<Action>, c: int, x: Command) returns (run': seq<World>, actions': seq<Action>)
    requires CarefulActions(run, actions) && c in Last(run).nodes && FreshLeader(Last(run).nodes[c]) && Last(run).nodes[c].id == c
    ensures CarefulActions(run', actions') && run'[0] == run[0] && c in Last(run').nodes
    ensures Last(run').nodes == Last(run).nodes[c := Last(run').nodes[c]]
    ensures var n, n' := Last(run).nodes[c], Last(run').nodes[c];
            n'.id == c && n'.peers == n.peers && Spreads(n', x, {})
    ensures OnlyLeader(run, c) && OnlyLeads(Last(run), c) ==> OnlyLeader(run', c) && OnlyLeads(Last(run'), c)
  {
    hide CarefulActions, Last, OnlyLeader;
    run', actions' := Act(run, actions, Do(Submit(c, x)));
    assert Last(run').nodes[c].proposals == [LogEntry(1, 0, x)];
    run', actions' := Act(run', actions', Do(Take(c)));
  }

  // One exchange: the peer takes x over, and the leader learns of it.
  lemma Exchanged(n: NodeState, m: NodeState, v: int, x: Command, done: set<int>)
    requires Spreads(n, x, done) && v in n.peers && v !in done && Follows(m, v)
    ensures var request := SnapshotFor(n, v);
            && request == AppendRequest(n.id, v, 1, 0, 0, [LogEntry(1, 1, x)], n.commitIndex)
            && var (m', reply) := AnswerAppend(m, request);
            && reply == AppendReply(n.id, v, 1, 1, true) && Accepts(m, request)
            && m'.log == LogOf(x) && !m'.Leads()
  {
    assert LogOf(x)[1..] == [LogEntry(1, 1, x)];
  }

  lemma CommitsIfQuorum(n: NodeState, x: Command, have: set<int>)
    requires n.log == LogOf(x) && n.currentTerm() == 1 && 0 <= n.commitIndex <= 1
    requires forall p <- have :: p in n.matchIndex && n.matchIndex[p] == 1
    ensures var c := MaybeCommit(n).commitIndex; 0 <= c <= 1 && (1 + |have| >= Majority(n) ==> c == 1)
  {
    hide CommitTarget;
    CommitTargetBelow(n, 1);
    forall p <- have ensures p in Matching(n, 1) {
    }
    SubsetSize(have, Matching(n, 1));
    assert 1 + |have| >= Majority(n) ==> Committable(n, 1);
  }

  lemma LogOfSize(x: Command)
    ensures |LogOf(x)| == 2
  {
  }

  lemma SpreadsOn(n: NodeState, v: int, x: Command, done: set<int>)
    requires Spreads(n, x, done) && v in n.peers
    ensures var n' := CountAppend(n, v, 1, 1, true);
            n'.id == n.id && n'.peers == n.peers && Spreads(n', x, done + {v})
  {
    hide CommitTarget, LogOf;
    LogOfSize(x);
    CommitsIfQuorum(Informed(n, v), x, done + {v});
  }

  lemma Share(run: seq<World>, actions: seq<Action>, c: int, v: int, x: Command, done: set<int>)
    returns (run': seq<World>, actions': seq<Action>)
    requires CarefulActions(run, actions) && c in Last(run).nodes && v in Last(run).nodes && c != v
    requires var n := Last(run).nodes[c];
             n.id == c && v in n.peers && v !in done && Spreads(n, x, done) && Follows(Last(run).nodes[v], v)
    ensures CarefulActions(run', actions') && run'[0] == run[0] && c in Last(run').nodes && v in Last(run').nodes
    ensures Last(run').nodes == Last(run).nodes[v := Last(run').nodes[v]][c := Last(run').nodes[c]]
    ensures Last(run').nodes[v].log == LogOf(x)
    ensures var n, n' := Last(run).nodes[c], Last(run').nodes[c];
            n'.id == c && n'.peers == n.peers && Spreads(n', x, done + {v})
    ensures OnlyLeader(run, c) && OnlyLeads(Last(run), c) ==> OnlyLeader(run', c) && OnlyLeads(Last(run'), c)
  {
    hide CarefulActions, Last, OnlyLeader, AnswerAppend, SnapshotFor, CountAppend, LogOf;
    var w := Last(run);
    Exchanged(w.nodes[c], w.nodes[v], v, x, done);
    SpreadsOn(w.nodes[c], v, x, done);
    run', actions' := Act(run, actions, Exchange(c, v, false));
  }

  /** A leader's first entry spreads to as many peers as have followed it so far, and a quorum of them commits it. */
  lemma {:induction false} ShareAll(run: seq<World>, actions: seq<Action>, c: int, x: Command, done: set<int>, todo: set<int>)
    returns (run': seq<World>, actions': seq<Action>)
    requires CarefulActions(run, actions) && c in Last(run).nodes && todo <= Last(run).nodes.Keys && c !in todo
    requires var n := Last(run).nodes[c]; n.id == c && todo <= n.peers && todo !! done && Spreads(n, x, done)
    requires forall v <- todo :: Follows(Last(run).nodes[v], v)
    ensures CarefulActions(run', actions') && run'[0] == run[0] && Last(run').nodes.Keys == Last(run).nodes.Keys
    ensures forall i <- Last(run).nodes :: i != c && i !in todo ==> Last(run').nodes[i] == Last(run).nodes[i]
    ensures forall v <- todo :: Last(run').nodes[v].log == LogOf(x)
    ensures var n, n' := Last(run).nodes[c], Last(run').nodes[c];
            n'.id == c && n'.peers == n.peers && Spreads(n', x, done + todo)
    ensures OnlyLeader(run, c) && OnlyLeads(Last(run), c) ==> OnlyLeader(run', c) && OnlyLeads(Last(run'), c)
    decreases |todo|
  {
    hide CarefulActions, Last, OnlyLeader, OnlyLeads, Spreads, Follows, LogOf;
    run', actions' := run, actions;
    if todo == {} {
      assert done + todo == done;
    } else {
      var v := SomeMember(todo);
      run', actions' := Share(run, actions, c, v, x, done);
      assert |todo - {v}| < |todo| && done + {v} + (todo - {v}) == done + todo;
      run', actions' := ShareAll(run', actions', c, x, done + {v}, todo - {v});
    }
  }

  // A fresh leader appends x, and the voters that elected it take it over.
  lemma Spread(run: seq<World>, actions: seq<Action>, c: int, x: Command, voters: set<int>)
    returns (run': seq<World>, actions': seq<Action>)
    requires CarefulActions(run, actions) && Elects(Last(run), c, voters)
    ensures CarefulActions(run', actions') && run'[0] == run[0] && c in Last(run').nodes
    ensures Last(run').nodes.Keys == Last(run).nodes.Keys
    ensures forall i <- Last(run).nodes :: i != c && i !in voters ==> Last(run').nodes[i] == Last(run).nodes[i]
    ensures var n := Last(run').nodes[c];
            n.peers == Last(run).nodes.Keys - {c} && Spreads(n, x, voters) && voters != {} && 1 + |voters| == Majority(n)
    ensures OnlyLeader(run, c) && OnlyLeads(Last(run), c) ==> OnlyLeader(run', c) && OnlyLeads(Last(run'), c)
  {
    hide CarefulActions, Last, FreshLeader, Spreads, Follows, OnlyLeader, OnlyLeads;
    run', actions' := Starts(run, actions, c, x);
    run', actions' := ShareAll(run', actions', c, x, {}, voters);
    assert {} + voters == voters;
    assert |Last(run).nodes.Keys - {c}| == |Last(run).nodes.Keys| - 1;
  }

  // -----  Commits  -----

  // Whatever is committed while only one node ever leads is held by most of these nodes.
  ghost predicate CommitsSafe(ids: set<int>) {
    forall run: seq<World>, actions: seq<Action>, l: int, i: int, idx: int ::
      IsAtomicRun(run, actions) && Init(run[0]) && run[0].nodes.Keys == ids && OnlyLeader(run, l) && l in ids
      && i in Last(run).nodes && 0 < idx <= Last(run).nodes[i].commitIndex ==>
        HeldByMost(Last(run), l, idx)
  }

  ghost predicate HeldByMost(w: World, l: int, idx: int) {
    l in w.nodes && 2 * |Agreeing(w, l, idx)| > |w.nodes|
  }

  // One candidate is elected by a smallest quorum, which commits its first entry; no other node has it.
  lemma HalfCommits(ids: set<int>) returns (run: seq<World>, actions: seq<Action>, c: int)
    requires NONE !in ids && !SafeSize(|ids|)
    ensures IsAtomicRun(run, actions) && Init(run[0]) && run[0].nodes.Keys == ids && OnlyLeader(run, c)
    ensures c in ids && c in Last(run).nodes && Last(run).nodes[c].commitIndex == 1 && !HeldByMost(Last(run), c, 1)
  {
    hide Init, Last, CarefulRun, Voting, OnlyLeader, OnlyLeads, Spreads;
    var steps, voters;
    run, steps, c, voters := OneElected(ids);
    actions := CarefulIfVoting(run, steps);
    run, actions := Spread(run, actions, c, Noop, voters);
    HalfHolds(Last(run), c, voters);
  }

  // Only these voters and the leader have an entry.
  lemma HalfHolds(w: World, c: int, voters: set<int>)
    requires c in w.nodes && voters <= w.nodes.Keys - {c} && Spreads(w.nodes[c], Noop, voters) && voters != {}
    requires w.nodes[c].peers == w.nodes.Keys - {c} && 1 + |voters| == Quorum(|w.nodes.Keys|) && !SafeSize(|w.nodes.Keys|)
    requires forall i <- w.nodes :: i != c && i !in voters ==> w.nodes[i].log == [SENTINEL]
    ensures w.nodes[c].commitIndex == 1 && !HeldByMost(w, c, 1)
  {
    assert |w.nodes.Keys - {c}| == |w.nodes.Keys| - 1 && |w.nodes.Keys| == |w.nodes|;
    forall i <- Agreeing(w, c, 1) ensures i in voters + {c} {
    }
    SubsetSize(Agreeing(w, c, 1), voters + {c});
  }

  lemma UntouchedLog(w: World, i: int)
    requires Untouched(w, i)
    ensures w.nodes[i].log == [SENTINEL]
  {
  }

  lemma OneBegins(run: seq<World>, steps: seq<Step>, c: int) returns (run': seq<World>, steps': seq<Step>)
    requires Voting(run, steps) && Untouched(Last(run), c) && OnlyLeader(run, c) && OnlyLeads(Last(run), c)
    ensures Voting(run', steps') && run'[0] == run[0] && OnlyLeader(run', c) && OnlyLeads(Last(run'), c)
    ensures Last(run').nodes == Last(run).nodes[c := BeginElection(Last(run).nodes[c])]
  {
    hide Voting, Last, BeginElection, OnlyLeader;
    run', steps' := ExtendVoting(run, steps, Timeout(c));
  }

  lemma OneStands(ids: set<int>) returns (run: seq<World>, steps: seq<Step>, c: int, voters: set<int>)
    requires NONE !in ids && !SafeSize(|ids|)
    ensures Voting(run, steps) && Init(run[0]) && run[0].nodes.Keys == ids && OnlyLeader(run, c) && OnlyLeads(Last(run), c)
    ensures Last(run).nodes.Keys == ids && Campaign(Last(run), c, voters) && Begun(Last(run), c)
    ensures forall v <- voters :: Untouched(Last(run), v)
    ensures voters != {} && voters <= ids - {c} && 1 + |voters| == Quorum(|ids|)
    ensures forall i <- ids :: i != c ==> Last(run).nodes[i].log == [SENTINEL]
  {
    hide Init, Last, Voting, OnlyLeader, OnlyLeads, Campaign, BeginElection, Untouched, Begun;
    run, steps := StartVoting(ids);
    var b, vb;
    c, b, voters, vb := Halves(ids);
    var w := Last(run);
    Begins(w, c);
    forall i <- ids ensures w.nodes[i].log == [SENTINEL] {
      UntouchedLog(w, i);
    }
    run, steps := OneBegins(run, steps, c);
    QuorumOfOthers(ids, c);
    BeginsCampaign(w, Last(run), c, b, voters);
  }

  lemma OneElected(ids: set<int>) returns (run: seq<World>, steps: seq<Step>, c: int, voters: set<int>)
    requires NONE !in ids && !SafeSize(|ids|)
    ensures Voting(run, steps) && Init(run[0]) && run[0].nodes.Keys == ids && OnlyLeader(run, c) && OnlyLeads(Last(run), c)
    ensures Last(run).nodes.Keys == ids && Elects(Last(run), c, voters)
    ensures forall i <- ids :: i != c && i !in voters ==> Last(run).nodes[i].log == [SENTINEL]
  {
    hide Init, Last, Voting, OnlyLeader, OnlyLeads, FreshLeader, Campaign, Follows, Untouched, Begun;
    run, steps, c, voters := OneStands(ids);
    run, steps := CollectFresh(run, steps, c, voters);
  }

  /** Exactly for which clusters a commit is held by most nodes, in runs with atomic exchanges and one leader. */
  lemma CommitsSafeIff(ids: set<int>)
    requires NONE !in ids
    ensures CommitsSafe(ids) <==> SafeSize(|ids|)
  {
    if SafeSize(|ids|) {
      forall run: seq<World>, actions: seq<Action>, l: int, i: int, idx: int
        | IsAtomicRun(run, actions) && Init(run[0]) && run[0].nodes.Keys == ids && OnlyLeader(run, l) && l in ids
          && i in Last(run).nodes && 0 < idx <= Last(run).nodes[i].commitIndex
        ensures HeldByMost(Last(run), l, idx)
      {
        MostHold(run, actions, l, i, idx);
      }
    } else {
      var run, actions, c := HalfCommits(ids);
    }
  }

  lemma MostHold(run: seq<World>, actions: seq<Action>, l: int, i: int, idx: int)
    requires IsAtomicRun(run, actions) && Init(run[0]) && SafeSize(|run[0].nodes.Keys|) && OnlyLeader(run, l)
    requires l in run[0].nodes && i in Last(run).nodes && 0 < idx <= Last(run).nodes[i].commitIndex
    ensures HeldByMost(Last(run), l, idx)
  {
    hide Init, OnlyLeader;
    SameNodes(run, actions, 0, |run| - 1);
    assert |Last(run).nodes| == |run[0].nodes.Keys|;
    CommitMeansReplicated(run, actions, l, |run| - 1, i, idx);
  }

  // -----  Applied commands  -----

  // Nodes that have applied equally much have the same groups.
  ghost predicate AppliesSafe(ids: set<int>) {
    forall run: seq<World>, actions: seq<Action>, a: int, b: int ::
      CarefulActions(run, actions) && Init(run[0]) && run[0].nodes.Keys == ids && a in Last(run).nodes && b in Last(run).nodes ==>
        SameGroups(Last(run).nodes[a], Last(run).nodes[b])
  }

  predicate SameGroups(n: NodeState, m: NodeState) {
    n.lastApplied == m.lastApplied ==> n.groups == m.groups
  }

  // The node leads term 1, and has committed and applied x alone.
  predicate CommittedAlone(n: NodeState, x: Command) {
    && n.Leads() && n.currentTerm() == 1 && n.log == LogOf(x) && n.commitIndex == 1
    && n.lastApplied == 1 && n.groups == ApplyCommand(map[], x)
  }

  // c appends x, commits it with these voters and applies it.
  lemma Commits(run: seq<World>, actions: seq<Action>, c: int, x: Command, voters: set<int>)
    returns (run': seq<World>, actions': seq<Action>)
    requires CarefulActions(run, actions) && Elects(Last(run), c, voters)
    ensures CarefulActions(run', actions') && run'[0] == run[0] && Last(run').nodes.Keys == Last(run).nodes.Keys
    ensures forall i <- Last(run).nodes :: i != c && i !in voters ==> Last(run').nodes[i] == Last(run).nodes[i]
    ensures CommittedAlone(Last(run').nodes[c], x)
  {
    hide CarefulActions, Last, Elects, Spreads, CommittedAlone, ApplyNext;
    run', actions' := Spread(run, actions, c, x, voters);
    AppliesOne(Last(run').nodes[c], x, voters);
    run', actions' := Act(run', actions', Do(Apply(c)));
  }

  lemma AppliesOne(n: NodeState, x: Command, voters: set<int>)
    requires Spreads(n, x, voters) && voters != {} && 1 + |voters| >= Majority(n)
    ensures CommittedAlone(ApplyNext(n), x)
  {
  }

  // Both leaders of a term commit and apply a command of their own.
  lemma TwoHistories(ids: set<int>) returns (run: seq<World>, actions: seq<Action>, a: int, b: int)
    requires NONE !in ids && !SafeSize(|ids|)
    ensures CarefulActions(run, actions) && Init(run[0]) && run[0].nodes.Keys == ids
    ensures a in Last(run).nodes && b in Last(run).nodes
    ensures CommittedAlone(Last(run).nodes[a], JoinGroup("g", "m", [])) && CommittedAlone(Last(run).nodes[b], Noop)
  {
    hide CarefulActions, Init, Last, Voting, FreshLeader, Follows, CommittedAlone;
    var steps, va, vb;
    run, steps, a, b, va, vb := TwoLeaders(ids);
    actions := CarefulIfVoting(run, steps);
    run, actions := Commits(run, actions, a, JoinGroup("g", "m", []), va);
    run, actions := Commits(run, actions, b, Noop, vb);
  }

  lemma CommandsDiffer(n: NodeState, m: NodeState)
    requires CommittedAlone(n, JoinGroup("g", "m", [])) && CommittedAlone(m, Noop)
    ensures !SameGroups(n, m) && !(CommittedPart(n) <= m.log)
  {
    assert "g" in ApplyCommand(map[], JoinGroup("g", "m", []));
    assert CommittedPart(n)[1] != m.log[1];
  }

  /** Exactly for which clusters nodes that have applied equally much have the same groups, in all careful runs. */
  lemma AppliesSafeIff(ids: set<int>)
    requires NONE !in ids
    ensures AppliesSafe(ids) <==> SafeSize(|ids|)
  {
    if SafeSize(|ids|) {
      forall run: seq<World>, actions: seq<Action>, a: int, b: int
        | CarefulActions(run, actions) && Init(run[0]) && run[0].nodes.Keys == ids && a in Last(run).nodes && b in Last(run).nodes
        ensures SameGroups(Last(run).nodes[a], Last(run).nodes[b])
      {
        hide Init, CarefulRun, IsAtomicRun;
        assert |run[0].nodes.Keys| == |run[0].nodes|;
        AppliesNeverConflict(run, actions, |run| - 1, a, b);
      }
    } else {
      var run, actions, a, b := TwoHistories(ids);
      CommandsDiffer(Last(run).nodes[a], Last(run).nodes[b]);
    }
  }

  // What was committed at some moment is in the log of whoever leads a term no earlier in the end.
  ghost predicate CommittedStays(ids: set<int>) {
    forall run: seq<World>, actions: seq<Action>, j: int, i: int, l: int ::
      CarefulActions(run, actions) && Init(run[0]) && run[0].nodes.Keys == ids && 0 <= j < |run|
      && i in run[j].nodes && l in Last(run).nodes && Last(run).nodes[l].Leads()
      && run[j].nodes[i].currentTerm() <= Last(run).nodes[l].currentTerm() ==>
        CommittedPart(run[j].nodes[i]) <= Last(run).nodes[l].log
  }

  /** Exactly for which clusters what is committed stays in later leaders' logs, in all careful runs. */
  lemma CommittedStaysIff(ids: set<int>)
    requires NONE !in ids
    ensures CommittedStays(ids) <==> SafeSize(|ids|)
  {
    if SafeSize(|ids|) {
      forall run: seq<World>, actions: seq<Action>, j: int, i: int, l: int
        | CarefulActions(run, actions) && Init(run[0]) && run[0].nodes.Keys == ids && 0 <= j < |run|
          && i in run[j].nodes && l in Last(run).nodes && Last(run).nodes[l].Leads()
          && run[j].nodes[i].currentTerm() <= Last(run).nodes[l].currentTerm()
        ensures CommittedPart(run[j].nodes[i]) <= Last(run).nodes[l].log
      {
        hide Init, CarefulRun, IsAtomicRun;
        assert |run[0].nodes.Keys| == |run[0].nodes|;
        CommittedStaysWithLeaders(run, actions, j, |run| - 1, i, l);
      }
    } else {
      var run, actions, a, b := TwoHistories(ids);
      CommandsDiffer(Last(run).nodes[a], Last(run).nodes[b]);
      assert run[|run| - 1] == Last(run);
    }
  }
}
