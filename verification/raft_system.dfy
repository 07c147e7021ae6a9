/**
 A cluster of Raft nodes as a step relation.  Each handler body is one step; messages
 sent are never removed from the network, so they may be lost, delayed, reordered and
 delivered any number of times.
 */
module RaftSystem {
  import opened GroupFsm
  import opened RaftLogs
  import opened RaftNodes

  // What has happened so far.  No step reads it: it exists to state properties of runs.
  datatype Past = Past(
    // (voter, term) -> the candidate voted for
    votes: map<(int, int), int>,
    // (candidate, term) -> the nodes whose votes it has counted, itself included
    counted: map<(int, int), set<int>>,
    // (term, node): node became leader of term
    led: set<(int, int)>,
    // term -> the log its leader had when last it led; term 0 stands for the fresh log
    ledLog: map<int, Log>,
    // node -> the entries it has applied, oldest first
    applied: map<int, Log>)

  datatype World = World(nodes: map<int, NodeState>, net: set<Message>, past: Past)

  datatype Step =
    | Timeout(node: int)            // an election starts
    | Ask(node: int, peer: int)     // a vote request is sent
    | Answer(m: Message)            // a vote request is handled
    | Count(m: Message)             // a vote reply is handled
    | Drop(node: int, peer: int)    // a vote request fails
    | Submit(node: int, c: Command) // a command is proposed
    | Take(node: int)               // a proposal is taken from the channel
    | Send(node: int, peer: int)    // a node that has led snapshots its log for a peer
    | Deliver(m: Message)           // an append request is handled
    | Ack(m: Message)               // an append reply is handled
    | Apply(node: int)              // one round of the apply loop

  // The one node a step reads and changes.
  function Actor(st: Step): int {
    match st
    case Timeout(i) => i
    case Ask(i, _) => i
    case Answer(m) => if m.VoteRequest? then m.to else NONE
    case Count(m) => if m.VoteReply? then m.cand else NONE
    case Drop(i, _) => i
    case Submit(i, _) => i
    case Take(i) => i
    case Send(i, _) => i
    case Deliver(m) => if m.AppendRequest? then m.to else NONE
    case Ack(m) => if m.AppendReply? then m.leader else NONE
    case Apply(i) => i
  }

  // The node is able to take the step.  The conjuncts about log, nextIndex and prevIndex rule out only
  // states in which the code would panic; NoPanic in module Bounds shows that no reachable state is one.  An election
  // waits for all its requests, so meanwhile no other starts and no proposal is taken.
  predicate Can(n: NodeState, st: Step) {
    match st
    case Timeout(_) => !n.Leads() && n.ballot.election.pending == {}
    case Ask(_, p) => p in n.ballot.election.pending && n.log != []
    case Answer(m) => m.VoteRequest? && n.log != []
    case Count(m) => m.VoteReply? && m.voter in n.ballot.election.pending && m.asked == n.ballot.election.term
    case Drop(_, p) => p in n.ballot.election.pending
    case Submit(_, _) => |n.proposals| < PROPOSE_CAPACITY
    case Take(_) => n.proposals != [] && n.ballot.election.pending == {}
    case Send(_, p) => p in n.peers && p in n.nextIndex && n.nextIndex[p] >= 0
    case Deliver(m) => m.AppendRequest? && m.prevIndex >= -1
    case Ack(m) => m.AppendReply?
    case Apply(_) => true
  }

  predicate Received(net: set<Message>, st: Step) {
    (st.Answer? || st.Count? || st.Deliver? || st.Ack?) ==> st.m in net
  }

  predicate Enabled(w: World, st: Step) {
    Actor(st) in w.nodes && Can(w.nodes[Actor(st)], st) && Received(w.net, st)
  }

  function NodeAfter(n: NodeState, st: Step): NodeState
    requires Can(n, st)
  {
    match st
    case Timeout(_) => BeginElection(n)
    case Ask(_, _) => n
    case Answer(m) => AnswerVote(n, m).0
    case Count(m) => CountVote(n, m.voter, m.term, m.granted)
    case Drop(_, p) => DropVote(n, p)
    case Submit(_, c) => Propose(n, c)
    case Take(_) => TakeProposal(n)
    case Send(_, _) => n
    case Deliver(m) => AnswerAppend(n, m).0
    case Ack(m) => CountAppend(n, m.follower, m.sent, m.term, m.success)
    case Apply(_) => ApplyNext(n)
  }

  function Sent(n: NodeState, st: Step): set<Message>
    requires Can(n, st)
  {
    match st
    case Ask(_, p) => {AskVote(n, p)}
    case Answer(m) => {AnswerVote(n, m).1}
    case Send(_, p) => {SnapshotFor(n, p)}
    case Deliver(m) => {AnswerAppend(n, m).1}
    case _ => {}
  }

  // The node takes the step and thereby becomes leader.
  predicate Wins(n: NodeState, st: Step) {
    st.Count? && st.m.VoteReply? && WinsWith(n, st.m.term, st.m.granted)
  }

  // The entries the node applies in the step.
  function Applies(n: NodeState, st: Step): Log {
    var j := n.lastApplied + 1;
    if st.Apply? && n.lastApplied < n.commitIndex && 0 <= j < |n.log| then [n.log[j]] else []
  }

  function PastAfter(past: Past, i: int, n: NodeState, st: Step): Past
    requires Can(n, st)
  {
    Past(VotesAfter(past.votes, i, n, st),
         CountedAfter(past.counted, i, n, st),
         if Wins(n, st) then past.led + {(n.ballot.election.term, i)} else past.led,
         LedLogAfter(past.ledLog, n, st),
         if Applies(n, st) == [] then past.applied else past.applied[i := AppliedBy(past, i) + Applies(n, st)])
  }

  function VotesAfter(votes: map<(int, int), int>, i: int, n: NodeState, st: Step): map<(int, int), int>
    requires Can(n, st)
  {
    if st.Timeout? then votes[(i, n.currentTerm() + 1) := i]
    else if st.Answer? && AnswerVote(n, st.m).1.granted then votes[(i, st.m.term) := st.m.cand]
    else votes
  }

  function CountedAfter(counted: map<(int, int), set<int>>, i: int, n: NodeState, st: Step)
    : map<(int, int), set<int>>
    requires Can(n, st)
  {
    var t := n.ballot.election.term;
    if st.Timeout? then counted[(i, n.currentTerm() + 1) := {i}]
    else if st.Count? && st.m.term <= t && st.m.granted then
      counted[(i, t) := (if (i, t) in counted then counted[(i, t)] else {}) + {st.m.voter}]
    else counted
  }

  function LedLogAfter(ledLog: map<int, Log>, n: NodeState, st: Step): map<int, Log>
    requires Can(n, st)
  {
    if Wins(n, st) then ledLog[n.ballot.election.term := n.log]
    else if st.Take? && n.Leads() then ledLog[n.currentTerm() := TakeProposal(n).log]
    else ledLog
  }

  function Next(w: World, st: Step): World
    requires Enabled(w, st)
  {
    var i := Actor(st);
    var n := w.nodes[i];
    World(w.nodes[i := NodeAfter(n, st)], w.net + Sent(n, st), PastAfter(w.past, i, n, st))
  }

  function AppliedBy(past: Past, i: int): Log {
    if i in past.applied then past.applied[i] else []
  }

  // Every node knows all the others as its peers.
  predicate WellFormed(w: World) {
    && NONE !in w.nodes
    && forall i <- w.nodes :: w.nodes[i].id == i && w.nodes[i].peers == w.nodes.Keys - {i}
  }

  predicate Init(w: World) {
    && WellFormed(w)
    && (forall i <- w.nodes :: w.nodes[i] == InitialNode(i, w.nodes.Keys - {i}))
    && w.net == {}
    && w.past == Past(map[], map[], {}, map[0 := [SENTINEL]], map[])
  }

  // A run: a state before and after each of its steps.
  ghost predicate IsRun(run: seq<World>, steps: seq<Step>) {
    && |run| == |steps| + 1
    && forall k :: 0 <= k < |steps| ==> Enabled(run[k], steps[k]) && run[k + 1] == Next(run[k], steps[k])
  }

  // Handling the vote reply does no harm: the candidate is still in the election's term, or the reply does not win
  // and brings no newer term than the election's but one ahead of the candidate, or its own before it has voted.
  predicate Harmless(n: NodeState, m: Message)
    requires m.VoteReply?
  {
    var e := n.ballot.election;
    || n.currentTerm() == e.term
    || if m.term > e.term then m.term > n.currentTerm() || (m.term == n.currentTerm() && n.ballot.votedFor == NONE)
       else !WinsWith(n, m.term, m.granted)
  }

  // H1: a vote reply is handled only where it is harmless.
  predicate SafeCount(w: World, st: Step)
    requires Enabled(w, st)
  {
    st.Count? ==> Harmless(w.nodes[Actor(st)], st.m)
  }

  // H2: the leader appends a proposal in the term in which it was stamped.
  predicate TimelyTake(w: World, st: Step)
    requires Enabled(w, st)
  {
    var n := w.nodes[Actor(st)];
    st.Take? && n.Leads() ==> n.proposals[0].term == n.currentTerm()
  }

  // H3: an accepted append request names the term the receiver has at the preceding index.  Log matching
  // needs that only of requests that carry entries.
  predicate MatchingDeliver(w: World, st: Step)
    requires Enabled(w, st)
  {
    var n := w.nodes[Actor(st)];
    st.Deliver? && Accepts(n, st.m) && st.m.prevIndex >= 0 && st.m.entries != [] ==> n.log[st.m.prevIndex].term == st.m.prevTerm
  }

  // H6: a snapshot for a peer is taken while the node still leads.
  predicate LeadingSend(w: World, st: Step)
    requires Enabled(w, st)
  {
    st.Send? ==> w.nodes[Actor(st)].Leads()
  }

  ghost predicate SafeCounts(run: seq<World>, steps: seq<Step>)
    requires IsRun(run, steps)
  {
    forall k :: 0 <= k < |steps| ==> SafeCount(run[k], steps[k])
  }

  ghost predicate TimelyTakes(run: seq<World>, steps: seq<Step>)
    requires IsRun(run, steps)
  {
    forall k :: 0 <= k < |steps| ==> TimelyTake(run[k], steps[k])
  }

  ghost predicate MatchingDelivers(run: seq<World>, steps: seq<Step>)
    requires IsRun(run, steps)
  {
    forall k :: 0 <= k < |steps| ==> MatchingDeliver(run[k], steps[k])
  }

  ghost predicate LeadingSends(run: seq<World>, steps: seq<Step>)
    requires IsRun(run, steps)
  {
    forall k :: 0 <= k < |steps| ==> LeadingSend(run[k], steps[k])
  }

  // What a step that handles a message leaves alone.
  lemma HandlersKeep(n: NodeState, st: Step)
    requires Can(n, st)
    ensures var n' := NodeAfter(n, st);
            && (st.Answer? || st.Deliver? ==>
                  (n'.Leads() ==> n.Leads() && n'.currentTerm() == n.currentTerm())
                  && forall m <- Sent(n, st) :: m.VoteReply? || m.AppendReply?)
            && (st.Answer? ==> n' == n.(ballot := n'.ballot))
            && (st.Count? ==>
                  n' == n.(ballot := n'.ballot, leaderId := n'.leaderId, nextIndex := n'.nextIndex, matchIndex := n'.matchIndex))
            && (st.Deliver? ==>
                  n' == n.(ballot := n'.ballot, leaderId := n'.leaderId, log := n'.log, commitIndex := n'.commitIndex))
            && (st.Ack? ==>
                  n' == n.(ballot := n'.ballot, commitIndex := n'.commitIndex, nextIndex := n'.nextIndex, matchIndex := n'.matchIndex))
  {
    hide AnswerVote, CountVote, AnswerAppend, CountAppend;
    match st
    case Answer(m) => AnswerVoteKeeps(n, m);
    case Count(m) => CountVoteKeeps(n, m.voter, m.term, m.granted);
    case Deliver(m) => AnswerAppendKeeps(n, m);
    case Ack(m) => CountAppendKeeps(n, m.follower, m.sent, m.term, m.success);
    case _ =>
  }

  lemma NodeKeepsIdentity(n: NodeState, st: Step)
    requires Can(n, st)
    ensures NodeAfter(n, st).id == n.id && NodeAfter(n, st).peers == n.peers
  {
    hide AnswerVote, CountVote, AnswerAppend, CountAppend;
    HandlersKeep(n, st);
  }

  lemma WellFormedStep(w: World, st: Step)
    requires WellFormed(w) && Enabled(w, st)
    ensures WellFormed(Next(w, st)) && Next(w, st).nodes.Keys == w.nodes.Keys
  {
    NodeKeepsIdentity(w.nodes[Actor(st)], st);
    assert Next(w, st).nodes.Keys == w.nodes.Keys;
  }

  // H4: one exchange of a leader with a peer - snapshot, handler, and the bookkeeping unless the
  // reply is lost - is one indivisible action.
  datatype Action = Do(st: Step) | Exchange(leader: int, peer: int, replyLost: bool)

  predicate Possible(w: World, a: Action) {
    match a
    case Do(st) => Enabled(w, st) && !st.Send? && !st.Deliver? && !st.Ack?
    case Exchange(i, p, _) => Enabled(w, Send(i, p)) && p in w.nodes
  }

  function Request(w: World, a: Action): (m: Message)
    requires Possible(w, a) && a.Exchange?
    ensures m.AppendRequest? && m.prevIndex >= -1
  {
    SnapshotFor(w.nodes[a.leader], a.peer)
  }

  function Reply(w: World, a: Action): (r: Message)
    requires Possible(w, a) && a.Exchange?
    ensures r.AppendReply?
  {
    AnswerAppend(w.nodes[a.peer], Request(w, a)).1
  }

  function PeerAfter(w: World, a: Action): NodeState
    requires Possible(w, a) && a.Exchange?
  {
    AnswerAppend(w.nodes[a.peer], Request(w, a)).0
  }

  function LeaderAfter(w: World, a: Action): NodeState
    requires Possible(w, a) && a.Exchange?
  {
    var n, r := w.nodes[a.leader], Reply(w, a);
    if a.replyLost then n else CountAppend(n, a.peer, r.sent, r.term, r.success)
  }

  function After(w: World, a: Action): World
    requires Possible(w, a)
  {
    match a
    case Do(st) => Next(w, st)
    case Exchange(i, p, _) =>
      w.(nodes := w.nodes[p := PeerAfter(w, a)][i := LeaderAfter(w, a)],
      net := w.net + {Request(w, a), Reply(w, a)})
  }

  // H1 and H2 for a step outside an exchange, H6 for an exchange.
  predicate Prompt(w: World, a: Action)
    requires Possible(w, a)
  {
    match a
    case Do(st) => SafeCount(w, st) && TimelyTake(w, st)
    case Exchange(i, _, _) => w.nodes[i].Leads()
  }

  /** An exchange is its steps taken one right after the other. */
  lemma ExchangeIsItsSteps(w: World, a: Action)
    requires WellFormed(w) && Possible(w, a) && a.Exchange?
    ensures var w1 := Next(w, Send(a.leader, a.peer));
            && w1.nodes == w.nodes && Enabled(w1, Deliver(Request(w, a)))
            && var w2 := Next(w1, Deliver(Request(w, a)));
            && Enabled(w2, Ack(Reply(w, a)))
            && After(w, a) == if a.replyLost then w2 else Next(w2, Ack(Reply(w, a)))
  {
    var w1 := Next(w, Send(a.leader, a.peer));
    assert w1.nodes == w.nodes;
    var w2 := Next(w1, Deliver(Request(w, a)));
    assert w2.nodes == w.nodes[a.peer := PeerAfter(w, a)];
  }

  ghost predicate IsAtomicRun(run: seq<World>, actions: seq<Action>) {
    && |run| == |actions| + 1
    && forall k :: 0 <= k < |actions| ==> Possible(run[k], actions[k]) && run[k + 1] == After(run[k], actions[k])
  }
}
