/**
 Runs in which only one node ever leads and each exchange with a peer is one action:
 what is committed is replicated, and applying is an exact replay of the log.
 */
module Replication {
  import opened Basics
  import opened GroupFsm
  import opened RaftLogs
  import opened RaftNodes
  import opened RaftSystem
  import opened ElectionSafety
  import opened OneLeader

  function CommandsOf(log: Log): seq<Command> {
    seq(|log|, i requires 0 <= i < |log| => log[i].command)
  }

  // The node has applied exactly the entries 1..lastApplied, in order and once each.
  ghost predicate Replayed(n: NodeState, applied: Log) {
    && 0 <= n.lastApplied <= n.commitIndex < |n.log|
    && applied == n.log[1..n.lastApplied + 1]
    && n.groups == Replay(CommandsOf(applied))
  }

  // What the leader believes about the peer is true, and it will send beyond that.
  ghost predicate Tracks(n: NodeState, p: int, peerLog: Log) {
    p in n.matchIndex && 0 <= n.matchIndex[p] < |peerLog| && n.matchIndex[p] < Lookup(n.nextIndex, p)
  }

  // The leader tracks exactly its peers, and truly.
  ghost predicate TracksAll(w: World, l: int)
    requires l in w.nodes
  {
    var n := w.nodes[l];
    && n.matchIndex.Keys <= n.peers
    && (n.Leads() ==> n.matchIndex.Keys == n.peers)
    && forall p <- n.matchIndex :: p in w.nodes && Tracks(n, p, w.nodes[p].log)
  }

  // The nodes whose log reaches index idx.
  function Holders(w: World, idx: int): set<int> {
    set i | i in w.nodes && idx < |w.nodes[i].log|
  }

  ghost predicate Committed(w: World, idx: int) {
    idx > 0 ==> Winning(|Holders(w, idx)|, |w.nodes|)
  }

  // Every node has replayed its log, and none has committed more than l.
  ghost predicate Replaying(w: World, l: int) {
    && Behind(w, l)
    && (forall i <- w.nodes :: Replayed(w.nodes[i], AppliedBy(w.past, i)))
    && (forall i <- w.nodes :: w.nodes[i].commitIndex <= w.nodes[l].commitIndex)
  }

  ghost predicate Tracking(w: World, l: int) {
    Replaying(w, l) && TracksAll(w, l)
  }

  ghost predicate Replicated(w: World, l: int) {
    Tracking(w, l) && Committed(w, w.nodes[l].commitIndex)
  }

  lemma InitReplicated(w: World, l: int)
    requires Init(w) && l in w.nodes
    ensures Replicated(w, l)
  {
  }

  // A node may lengthen its log and commit more of it.
  lemma ReplayedLater(n: NodeState, n': NodeState, applied: Log)
    requires Replayed(n, applied) && n.log <= n'.log
    requires n'.lastApplied == n.lastApplied && n'.groups == n.groups
    requires n.commitIndex <= n'.commitIndex < |n'.log|
    ensures Replayed(n', applied)
  {
    SliceOfPrefix(n'.log, n.log, 1, n.lastApplied + 1);
  }

  lemma ReplayOneMore(applied: Log, e: LogEntry)
    ensures Replay(CommandsOf(applied + [e])) == ApplyCommand(Replay(CommandsOf(applied)), e.command)
  {
    var cs := CommandsOf(applied + [e]);
    assert cs[..|cs| - 1] == CommandsOf(applied);
  }

  lemma ReplayedNext(n: NodeState, st: Step, past: Past, i: int)
    requires Can(n, st) && st.Apply? && Replayed(n, AppliedBy(past, i))
    ensures Replayed(NodeAfter(n, st), AppliedBy(PastAfter(past, i, n, st), i))
  {
    hide Replay;
    if n.lastApplied < n.commitIndex {
      ReplayOneMore(AppliedBy(past, i), n.log[n.lastApplied + 1]);
      SliceOneMore(n.log, 1, n.lastApplied + 1);
    }
  }

  lemma HoldersGrow(w: World, w': World, idx: int)
    requires w'.nodes.Keys == w.nodes.Keys
    requires forall i <- w.nodes :: |w.nodes[i].log| <= |w'.nodes[i].log|
    ensures Committed(w, idx) ==> Committed(w', idx)
  {
    forall i <- Holders(w, idx) ensures i in Holders(w', idx) {
    }
    SubsetSize(Holders(w, idx), Holders(w', idx));
    assert |w'.nodes| == |w.nodes| by { assert |w'.nodes.Keys| == |w.nodes.Keys|; }
  }

  /** What the leader counts as a quorum holds the entry: as many nodes as win an election. */
  lemma CommittableIsHeld(w: World, l: int, n: NodeState, idx: int, p: int)
    requires WellFormed(w) && l in w.nodes
    requires n.peers == w.nodes[l].peers && n.matchIndex.Keys <= n.peers && n.log == w.nodes[l].log
    requires forall p <- n.matchIndex :: p in w.nodes && n.matchIndex[p] < |w.nodes[p].log|
    requires Committable(n, idx) && p in Matching(n, idx)
    ensures Winning(|Holders(w, idx)|, |w.nodes|)
  {
    SubsetSize({p}, Matching(n, idx));
    forall i <- Matching(n, idx) + {l} ensures i in Holders(w, idx) {
    }
    SubsetSize(Matching(n, idx) + {l}, Holders(w, idx));
    assert w.nodes.Keys == n.peers + {l};
    assert |w.nodes| == |w.nodes.Keys|;
  }

  lemma OnlyLeadsBetween(w: World, st: Step, l: int)
    requires Enabled(w, st) && OnlyLeads(w, l) && (st.Send? || st.Deliver? || st.Ack?)
    ensures OnlyLeads(Next(w, st), l)
  {
    assert NodeAfter(w.nodes[Actor(st)], st).Leads() ==> w.nodes[Actor(st)].Leads();
  }

  lemma BehindAfter(w: World, l: int, a: Action)
    requires Behind(w, l) && Possible(w, a) && OnlyLeads(After(w, a), l)
    ensures Behind(After(w, a), l)
  {
    match a
    case Do(st) => BehindStep(w, l, st);
    case Exchange(i, p, lost) =>
      ExchangeIsItsSteps(w, a);
      var s1, s2, s3 := Send(i, p), Deliver(Request(w, a)), Ack(Reply(w, a));
      OnlyLeadsBetween(w, s1, l);
      BehindStep(w, l, s1);
      var w1 := Next(w, s1);
      OnlyLeadsBetween(w1, s2, l);
      BehindStep(w1, l, s2);
      if !lost {
        var w2 := Next(w1, s2);
        OnlyLeadsBetween(w2, s3, l);
        BehindStep(w2, l, s3);
      }
  }

  // What a step outside an exchange does to the node's log and commit index ...
  lemma LocalStep(n: NodeState, st: Step)
    requires Can(n, st) && !st.Send? && !st.Deliver? && !st.Ack? && n.log != []
    ensures var n' := NodeAfter(n, st);
            && n'.commitIndex == n.commitIndex && n.log <= n'.log
            && (!st.Apply? ==> n'.lastApplied == n.lastApplied && n'.groups == n.groups)
            && (!(st.Take? && n.Leads()) ==> n'.log == n.log)
  {
    hide CommitTarget, ApplyCommand, AnswerVote, CountVote, AnswerAppend, CountAppend;
    HandlersKeep(n, st);
  }

  // ... and to what it knows of its peers.
  lemma LocalKnowledge(n: NodeState, st: Step)
    requires Can(n, st) && !st.Send? && !st.Deliver? && !st.Ack?
    ensures var n' := NodeAfter(n, st);
            if Wins(n, st) then n'.nextIndex == Reset(n.nextIndex, n.peers, |n.log|)
                                && n'.matchIndex == Reset(n.matchIndex, n.peers, 0)
            else n'.nextIndex == n.nextIndex && n'.matchIndex == n.matchIndex && (n'.Leads() ==> n.Leads())
  {
    hide CommitTarget, Spliced, ApplyCommand, Grants, Appended, AnswerAppend, CountAppend;
  }

  lemma LocalKeepsReplayed(w: World, l: int, st: Step, i: int)
    requires Replaying(w, l) && Enabled(w, st) && !st.Send? && !st.Deliver? && !st.Ack? && i in w.nodes
    ensures i in Next(w, st).nodes && Replayed(Next(w, st).nodes[i], AppliedBy(Next(w, st).past, i))
    ensures Next(w, st).nodes[i].commitIndex == w.nodes[i].commitIndex
    ensures w.nodes[i].log <= Next(w, st).nodes[i].log
  {
    hide NodeAfter, Behind;
    if i == Actor(st) {
      ActorLogNonempty(w, l, i);
      LocalStep(w.nodes[i], st);
      if st.Apply? {
        ReplayedNext(w.nodes[i], st, w.past, i);
      } else {
        ReplayedLater(w.nodes[i], NodeAfter(w.nodes[i], st), AppliedBy(w.past, i));
      }
    }
  }

  lemma ActorLogNonempty(w: World, l: int, i: int)
    requires Behind(w, l) && i in w.nodes
    ensures w.nodes[i].log != []
  {
  }

  lemma LocalKeepsReplaying(w: World, l: int, st: Step)
    requires Replaying(w, l) && Enabled(w, st) && !st.Send? && !st.Deliver? && !st.Ack?
    requires OnlyLeads(Next(w, st), l)
    ensures Replaying(Next(w, st), l) && Next(w, st).nodes.Keys == w.nodes.Keys
    ensures forall i <- w.nodes :: w.nodes[i].log <= Next(w, st).nodes[i].log
    ensures forall i <- w.nodes :: Next(w, st).nodes[i].commitIndex == w.nodes[i].commitIndex
  {
    hide NodeAfter, Replayed;
    var w' := Next(w, st);
    BehindStep(w, l, st);
    assert w'.nodes.Keys == w.nodes.Keys;
    forall i <- w.nodes ensures Replayed(w'.nodes[i], AppliedBy(w'.past, i))
      && w'.nodes[i].commitIndex == w.nodes[i].commitIndex && w.nodes[i].log <= w'.nodes[i].log {
      LocalKeepsReplayed(w, l, st, i);
    }
  }

  lemma LocalTracks(n: NodeState, st: Step, p: int, peerLog: Log)
    requires Can(n, st) && !st.Send? && !st.Deliver? && !st.Ack? && n.log != [] && peerLog != []
    requires p in n.matchIndex ==> Tracks(n, p, peerLog)
    ensures p in NodeAfter(n, st).matchIndex ==> Tracks(NodeAfter(n, st), p, peerLog)
  {
    hide NodeAfter;
    LocalKnowledge(n, st);
  }

  lemma LeaderMatchKeys(n: NodeState, st: Step)
    requires Can(n, st) && !st.Send? && !st.Deliver? && !st.Ack?
    requires n.matchIndex.Keys <= n.peers && (n.Leads() ==> n.matchIndex.Keys == n.peers)
    ensures var n' := NodeAfter(n, st);
            && n'.matchIndex.Keys <= n.peers && (n'.Leads() ==> n'.matchIndex.Keys == n.peers)
  {
    hide NodeAfter;
    LocalKnowledge(n, st);
  }

  lemma LeaderTracksAll(w: World, l: int, st: Step)
    requires WellFormed(w) && l in w.nodes && TracksAll(w, l) && Enabled(w, st) && Actor(st) == l
    requires !st.Send? && !st.Deliver? && !st.Ack? && forall p <- w.nodes :: w.nodes[p].log != []
    ensures l in Next(w, st).nodes && TracksAll(Next(w, st), l)
  {
    hide NodeAfter, Can, Tracks, PastAfter, Sent, Wins, Reset;
    var w', n := Next(w, st), w.nodes[l];
    NodeKeepsIdentity(n, st);
    LeaderMatchKeys(n, st);
    assert w'.nodes[l] == NodeAfter(n, st) && forall p <- n.peers :: p != l && w'.nodes[p] == w.nodes[p];
    forall p <- w'.nodes[l].matchIndex ensures Tracks(w'.nodes[l], p, w'.nodes[p].log) {
      LocalTracks(n, st, p, w.nodes[p].log);
    }
  }

  lemma LocalKeepsTracks(w: World, l: int, st: Step)
    requires Tracking(w, l) && Enabled(w, st) && !st.Send? && !st.Deliver? && !st.Ack?
    ensures l in Next(w, st).nodes && TracksAll(Next(w, st), l)
  {
    if Actor(st) == l {
      LeaderTracksAll(w, l, st);
    } else {
      ActorLogNonempty(w, l, Actor(st));
      LocalStep(w.nodes[Actor(st)], st);
      hide NodeAfter;
    }
  }

  // A peer either keeps its log, or has the leader's whole log and its commit index.
  lemma PeerCases(w: World, l: int, a: Action)
    requires Behind(w, l) && Possible(w, a) && a.Exchange? && a.leader == l
    requires 0 <= w.nodes[l].commitIndex < |w.nodes[l].log|
    requires w.nodes[a.peer].commitIndex <= w.nodes[l].commitIndex
    ensures var n, n' := w.nodes[a.peer], PeerAfter(w, a);
            && n'.lastApplied == n.lastApplied && n'.groups == n.groups && n.log <= n'.log
            && n'.id == n.id && n'.peers == n.peers
            && if Reply(w, a).success then n'.log == w.nodes[l].log && n'.commitIndex == w.nodes[l].commitIndex
               else n'.log == n.log && n'.commitIndex == n.commitIndex
  {
    hide CountAppend, Replayed;
    var m := Request(w, a);
    assert CanSend(w.nodes[l], a.peer);
    SentCut(w.nodes[l], Send(l, a.peer), l, w.nodes[l].log);
    assert m in Sent(w.nodes[l], Send(l, a.peer));
    if Accepts(w.nodes[a.peer], m) {
      DeliveredPrefix(w.nodes[a.peer], m, l, w.nodes[l].log);
      assert m.prevIndex + 1 + |m.entries| == |w.nodes[l].log|;
    }
  }

  // n' keeps its role, and at most sends p an earlier entry, never one p is known to have.
  ghost predicate Backed(n: NodeState, n': NodeState, p: int, peerLog: Log) {
    && n'.ballot == n.ballot && n'.commitIndex == n.commitIndex && n'.matchIndex == n.matchIndex
    && (p in n'.matchIndex ==> Tracks(n', p, peerLog))
    && forall q | q != p :: Lookup(n'.nextIndex, q) == Lookup(n.nextIndex, q)
  }

  predicate SteppedDown(n: NodeState, n': NodeState) {
    !n'.Leads() && n'.commitIndex == n.commitIndex && n'.matchIndex == n.matchIndex && n'.nextIndex == n.nextIndex
  }

  // n' has learnt that peer p has the whole log.
  predicate Moved(n: NodeState, n': NodeState, p: int) {
    n' == MaybeCommit(Informed(n, p))
  }

  function Informed(n: NodeState, p: int): NodeState {
    n.(nextIndex := n.nextIndex[p := |n.log|], matchIndex := n.matchIndex[p := |n.log| - 1])
  }

  lemma LeaderCases(w: World, a: Action)
    requires Possible(w, a) && a.Exchange?
    requires a.peer in w.nodes[a.leader].matchIndex ==> Tracks(w.nodes[a.leader], a.peer, w.nodes[a.peer].log)
    ensures var (n, n', p) := (w.nodes[a.leader], LeaderAfter(w, a), a.peer);
            && n'.log == n.log && n'.lastApplied == n.lastApplied && n'.groups == n.groups && n'.peers == n.peers
            && (Backed(n, n', p, w.nodes[p].log) || SteppedDown(n, n') || (Reply(w, a).success && Moved(n, n', p)))
  {
  }

  // Whatever the leader makes of a reply, it commits no less than before and nothing past its log.
  lemma LeaderKeeps(n: NodeState, p: int, sent: int, term: int, success: bool)
    requires 0 <= n.commitIndex < |n.log|
    ensures var n' := CountAppend(n, p, sent, term, success);
            && n'.log == n.log && n'.lastApplied == n.lastApplied && n'.groups == n.groups
            && n'.id == n.id && n'.peers == n.peers
            && n.commitIndex <= n'.commitIndex < |n'.log|
  {
    CommitTargetBelow(Informed(n, p), |n.log| - 1);
  }

  // In the world after the exchange, before the leader looks for more to commit.
  lemma InformedCommits(w: World, l: int, p: int)
    requires WellFormed(w) && l in w.nodes && p in w.nodes[l].peers
    requires TracksAll(w, l) && w.nodes[p].log == w.nodes[l].log && 0 < |w.nodes[l].log|
    requires Committed(w, w.nodes[l].commitIndex)
    ensures Committed(w, MaybeCommit(Informed(w.nodes[l], p)).commitIndex)
  {
    var n := Informed(w.nodes[l], p);
    var c := MaybeCommit(n).commitIndex;
    MaybeCommitIsGreatest(n, c);
    if c > n.commitIndex {
      CommittableIsHeld(w, l, n, c, p);
    }
  }

  // The world after the peer has answered and before the leader knows.
  function Answered(w: World, a: Action): World
    requires Possible(w, a) && a.Exchange?
  {
    w.(nodes := w.nodes[a.peer := PeerAfter(w, a)])
  }

  lemma CommitInside(n: NodeState, applied: Log)
    requires Replayed(n, applied)
    ensures 0 <= n.commitIndex < |n.log|
  {
  }

  lemma AnsweredHolds(w: World, l: int, a: Action)
    requires Replaying(w, l) && Possible(w, a) && a.Exchange? && a.leader == l
    ensures var w1 := Answered(w, a);
            && WellFormed(w1) && w1.nodes.Keys == w.nodes.Keys && w1.nodes[l] == w.nodes[l]
            && (forall i <- w.nodes :: w.nodes[i].log <= w1.nodes[i].log)
            && Replayed(w1.nodes[a.peer], AppliedBy(w.past, a.peer))
            && w1.nodes[a.peer].commitIndex <= w.nodes[l].commitIndex
            && w.nodes[a.peer].commitIndex <= w1.nodes[a.peer].commitIndex
            && (Reply(w, a).success ==> w1.nodes[a.peer].log == w.nodes[l].log)
  {
    hide Reply, PeerAfter, Replayed, CutFrom, Copied, SendsInside;
    var w1, p := Answered(w, a), a.peer;
    CommitInside(w.nodes[l], AppliedBy(w.past, l));
    PeerCases(w, l, a);
    ReplayedGrows(w.nodes[p], w1.nodes[p], w.nodes[l], AppliedBy(w.past, p), AppliedBy(w.past, l));
  }

  // A node that has taken over another's log and commit index, or kept its own.
  lemma ReplayedGrows(n: NodeState, n': NodeState, leader: NodeState, applied: Log, leaderApplied: Log)
    requires Replayed(n, applied) && Replayed(leader, leaderApplied) && n.commitIndex <= leader.commitIndex
    requires n'.lastApplied == n.lastApplied && n'.groups == n.groups && n.log <= n'.log
    requires (n'.log == leader.log && n'.commitIndex == leader.commitIndex) || (n'.log == n.log && n'.commitIndex == n.commitIndex)
    ensures Replayed(n', applied)
  {
    ReplayedLater(n, n', applied);
  }

  lemma LeaderReplays(w: World, l: int, a: Action)
    requires Replaying(w, l) && Possible(w, a) && a.Exchange? && a.leader == l
    ensures var n' := LeaderAfter(w, a);
            && n'.log == w.nodes[l].log && w.nodes[l].commitIndex <= n'.commitIndex < |n'.log|
            && n'.id == l && n'.peers == w.nodes[l].peers && Replayed(n', AppliedBy(w.past, l))
  {
    var n, r := w.nodes[l], Reply(w, a);
    assert Replayed(n, AppliedBy(w.past, l));
    LeaderKeeps(n, a.peer, r.sent, r.term, r.success);
    ReplayedLater(n, LeaderAfter(w, a), AppliedBy(w.past, l));
  }

  // The leader is l; the exchange changes it and its peer.
  lemma ExchangeShape(w: World, l: int, a: Action)
    requires Behind(w, l) && Possible(w, a) && a.Exchange?
    ensures a.leader == l && a.peer in w.nodes && l in w.nodes && a.peer != l
    ensures w.nodes[l].peers == w.nodes.Keys - {l} && w.nodes[l].log != []
    ensures Answered(w, a).nodes == w.nodes[a.peer := PeerAfter(w, a)]
    ensures After(w, a).nodes == w.nodes[a.peer := PeerAfter(w, a)][l := LeaderAfter(w, a)] && After(w, a).past == w.past
    ensures After(w, a).nodes.Keys == w.nodes.Keys
  {
    hide PeerAfter, LeaderAfter, Reply;
  }

  lemma ExchangeKeepsReplaying(w: World, l: int, a: Action)
    requires Replaying(w, l) && Possible(w, a) && a.Exchange? && OnlyLeads(After(w, a), l)
    ensures Replaying(After(w, a), l) && After(w, a).nodes.Keys == w.nodes.Keys
    ensures forall i <- w.nodes :: w.nodes[i].commitIndex <= After(w, a).nodes[i].commitIndex
    ensures forall i <- w.nodes :: w.nodes[i].log <= After(w, a).nodes[i].log
  {
    hide Behind, Possible, After, Answered, PeerAfter, LeaderAfter, Reply, Replayed, AppliedBy;
    BehindAfter(w, l, a);
    ExchangeShape(w, l, a);
    AnsweredHolds(w, l, a);
    LeaderReplays(w, l, a);
  }

  lemma ReplayingAfter(w: World, l: int, a: Action)
    requires Replaying(w, l) && Possible(w, a) && OnlyLeads(After(w, a), l)
    ensures Replaying(After(w, a), l) && After(w, a).nodes.Keys == w.nodes.Keys
    ensures forall i <- w.nodes :: w.nodes[i].commitIndex <= After(w, a).nodes[i].commitIndex
    ensures forall i <- w.nodes :: w.nodes[i].log <= After(w, a).nodes[i].log
  {
    match a
    case Do(st) => LocalKeepsReplaying(w, l, st);
    case Exchange(_, _, _) => ExchangeKeepsReplaying(w, l, a);
  }

  lemma AnsweredTracks(w: World, l: int, a: Action)
    requires Tracking(w, l) && Possible(w, a) && a.Exchange? && a.leader == l
    ensures TracksAll(Answered(w, a), l)
  {
    AnsweredHolds(w, l, a);
  }

  lemma LeaderTracks(w: World, l: int, a: Action)
    requires Tracking(w, l) && Possible(w, a) && a.Exchange? && a.leader == l
    ensures TracksAll(After(w, a), l)
  {
    hide Behind, Possible, After, Answered, PeerAfter, LeaderAfter, Reply, Replayed, AppliedBy, MaybeCommit;
    ExchangeShape(w, l, a);
    AnsweredTracks(w, l, a);
    AnsweredHolds(w, l, a);
    LeaderTracksPeer(w, l, a);
    CommitTargetKeeps(Informed(w.nodes[l], a.peer));
  }

  lemma LeaderTracksPeer(w: World, l: int, a: Action)
    requires Tracking(w, l) && Possible(w, a) && a.Exchange? && a.leader == l
    ensures var (n, n', p) := (w.nodes[l], LeaderAfter(w, a), a.peer);
            && n'.peers == n.peers
            && (Backed(n, n', p, w.nodes[p].log) || SteppedDown(n, n') || (Reply(w, a).success && Moved(n, n', p)))
  {
    hide Backed, SteppedDown, Moved, Replayed, LeaderAfter, Reply;
    var n := w.nodes[l];
    assert Behind(w, l) && TracksAll(w, l);
    LeaderCases(w, a);
  }

  lemma CommitTargetKeeps(n: NodeState)
    ensures var n' := MaybeCommit(n);
            n'.matchIndex == n.matchIndex && n'.nextIndex == n.nextIndex && n'.peers == n.peers && n'.ballot == n.ballot
  {
  }

  lemma TrackingAfter(w: World, l: int, a: Action)
    requires Tracking(w, l) && Possible(w, a) && OnlyLeads(After(w, a), l)
    ensures Tracking(After(w, a), l)
  {
    ReplayingAfter(w, l, a);
    match a
    case Do(st) => LocalKeepsTracks(w, l, st);
    case Exchange(_, _, _) => LeaderTracks(w, l, a);
  }

  // What the leader has committed after an exchange was held by most before it knew.
  lemma ExchangeCommits(w: World, l: int, a: Action)
    requires Replicated(w, l) && Possible(w, a) && a.Exchange? && a.leader == l
    ensures Committed(Answered(w, a), LeaderAfter(w, a).commitIndex)
  {
    var w1 := Answered(w, a);
    AnsweredHolds(w, l, a);
    HoldersGrow(w, w1, w.nodes[l].commitIndex);
    LeaderCases(w, a);
    if Reply(w, a).success && Moved(w.nodes[l], LeaderAfter(w, a), a.peer) {
      AnsweredTracks(w, l, a);
      assert |w1.nodes| == |w1.nodes.Keys| == |w.nodes|;
      InformedCommits(w1, l, a.peer);
    }
  }

  lemma ReplicatedAfter(w: World, l: int, a: Action)
    requires Replicated(w, l) && Possible(w, a) && OnlyLeads(After(w, a), l)
    ensures Replicated(After(w, a), l)
  {
    TrackingAfter(w, l, a);
    CommittedAfter(w, l, a);
  }

  lemma CommittedAfter(w: World, l: int, a: Action)
    requires Replicated(w, l) && Possible(w, a) && OnlyLeads(After(w, a), l)
    ensures l in After(w, a).nodes && Committed(After(w, a), After(w, a).nodes[l].commitIndex)
  {
    hide Behind, Possible, After, Answered, PeerAfter, LeaderAfter, Reply, Replayed, TracksAll, Committed;
    var w' := After(w, a);
    ReplayingAfter(w, l, a);
    match a
    case Do(st) =>
      DoKeepsCommit(w, l, a);
      HoldersGrow(w, w', w.nodes[l].commitIndex);
    case Exchange(_, _, _) =>
      ExchangeShape(w, l, a);
      ExchangeCommits(w, l, a);
      AnsweredHolds(w, l, a);
      LeaderReplays(w, l, a);
      HoldersGrow(Answered(w, a), w', w'.nodes[l].commitIndex);
  }

  lemma DoKeepsCommit(w: World, l: int, a: Action)
    requires Replaying(w, l) && Possible(w, a) && a.Do? && OnlyLeads(After(w, a), l)
    ensures l in w.nodes && l in After(w, a).nodes && After(w, a).nodes[l].commitIndex == w.nodes[l].commitIndex
  {
    LocalKeepsReplaying(w, l, a.st);
  }

  lemma {:induction false} TrackingRun(run: seq<World>, actions: seq<Action>, l: int, k: int)
    requires IsAtomicRun(run, actions) && Init(run[0]) && OnlyLeader(run, l)
    requires l in run[0].nodes && 0 <= k < |run|
    ensures Tracking(run[k], l)
  {
    if k == 0 {
      InitReplicated(run[0], l);
    } else {
      TrackingRun(run, actions, l, k - 1);
      assert OnlyLeads(run[k], l);
      TrackingAfter(run[k - 1], l, actions[k - 1]);
    }
  }

  lemma {:induction false} ReplicatedRun(run: seq<World>, actions: seq<Action>, l: int, k: int)
    requires IsAtomicRun(run, actions) && Init(run[0]) && OnlyLeader(run, l)
    requires l in run[0].nodes && 0 <= k < |run|
    ensures Replicated(run[k], l)
  {
    if k == 0 {
      InitReplicated(run[0], l);
    } else {
      ReplicatedRun(run, actions, l, k - 1);
      assert OnlyLeads(run[k], l);
      ReplicatedAfter(run[k - 1], l, actions[k - 1]);
    }
  }

  // The nodes that agree with the leader through index idx.
  ghost function Agreeing(w: World, l: int, idx: int): set<int>
    requires l in w.nodes
  {
    set j | j in w.nodes && Agree(w.nodes[j].log, w.nodes[l].log, idx + 1)
  }

  /**
   Committed means replicated: every index any node has committed is held, with the leader's
   entries up to it, by as many nodes as it takes to win an election.  In a cluster of an odd
   number of nodes, or of two, that is more than half of them.
   */
  lemma CommitMeansReplicated(run: seq<World>, actions: seq<Action>, l: int, k: int, i: int, idx: int)
    requires IsAtomicRun(run, actions) && Init(run[0]) && OnlyLeader(run, l)
    requires l in run[0].nodes && 0 <= k < |run| && i in run[k].nodes
    requires 0 < idx <= run[k].nodes[i].commitIndex
    ensures l in run[k].nodes && idx < |run[k].nodes[l].log|
    ensures Winning(|Agreeing(run[k], l, idx)|, |run[k].nodes|)
    ensures SafeSize(|run[k].nodes|) ==> 2 * |Agreeing(run[k], l, idx)| > |run[k].nodes|
  {
    ReplicatedRun(run, actions, l, k);
    var w := run[k];
    forall j <- Holders(w, w.nodes[l].commitIndex) ensures j in Agreeing(w, l, idx) {
      assert w.nodes[j].log == w.nodes[l].log[..|w.nodes[j].log|];
    }
    SubsetSize(Holders(w, w.nodes[l].commitIndex), Agreeing(w, l, idx));
  }

  /** A leader has a matchIndex for every peer; and no matchIndex is ever an overstatement, in a cluster of any size. */
  lemma MatchIndexIsTrue(run: seq<World>, actions: seq<Action>, l: int, k: int, p: int)
    requires IsAtomicRun(run, actions) && Init(run[0]) && OnlyLeader(run, l)
    requires l in run[0].nodes && 0 <= k < |run| && l in run[k].nodes && p in run[k].nodes[l].peers
    ensures var n := run[k].nodes[l];
            && (n.Leads() ==> p in n.matchIndex)
            && (p in n.matchIndex ==>
                  && p in run[k].nodes && p in n.nextIndex
                  && n.matchIndex[p] < n.nextIndex[p]
                  && Agree(run[k].nodes[p].log, n.log, n.matchIndex[p] + 1))
  {
    TrackingRun(run, actions, l, k);
    var n := run[k].nodes[l];
    if p in n.matchIndex {
      assert Tracks(n, p, run[k].nodes[p].log);
      assert run[k].nodes[p].log == n.log[..|run[k].nodes[p].log|];
    }
  }

  /** A commit index never moves back, and never past the end of its log. */
  lemma CommitOnlyGrows(run: seq<World>, actions: seq<Action>, l: int, k: int, i: int)
    requires IsAtomicRun(run, actions) && Init(run[0]) && OnlyLeader(run, l)
    requires l in run[0].nodes && 0 <= k < |actions| && i in run[k].nodes
    ensures i in run[k + 1].nodes
    ensures run[k].nodes[i].commitIndex <= run[k + 1].nodes[i].commitIndex < |run[k + 1].nodes[i].log|
  {
    TrackingRun(run, actions, l, k);
    assert OnlyLeads(run[k + 1], l);
    ReplayingAfter(run[k], l, actions[k]);
    assert Replayed(run[k + 1].nodes[i], AppliedBy(run[k + 1].past, i));
  }

  /**
   Applying is an exact replay: what a node has applied is its log from 1 to lastApplied, each
   entry once and in order, and its group table is what those commands make of an empty one.
   */
  lemma ApplyIsReplay(run: seq<World>, actions: seq<Action>, l: int, k: int, i: int)
    requires IsAtomicRun(run, actions) && Init(run[0]) && OnlyLeader(run, l)
    requires l in run[0].nodes && 0 <= k < |run| && i in run[k].nodes
    ensures Replayed(run[k].nodes[i], AppliedBy(run[k].past, i))
  {
    TrackingRun(run, actions, l, k);
  }

  /** Nodes that have applied equally much have the same groups. */
  lemma EqualProgressEqualGroups(run: seq<World>, actions: seq<Action>, l: int, k: int, a: int, b: int)
    requires IsAtomicRun(run, actions) && Init(run[0]) && OnlyLeader(run, l)
    requires l in run[0].nodes && 0 <= k < |run| && a in run[k].nodes && b in run[k].nodes
    requires run[k].nodes[a].lastApplied == run[k].nodes[b].lastApplied
    ensures run[k].nodes[a].groups == run[k].nodes[b].groups
  {
    TrackingRun(run, actions, l, k);
    var w := run[k];
    var x, y, log := w.nodes[a], w.nodes[b], w.nodes[l].log;
    assert Replayed(x, AppliedBy(w.past, a)) && Replayed(y, AppliedBy(w.past, b));
    SliceOfPrefix(log, x.log, 1, x.lastApplied + 1);
    SliceOfPrefix(log, y.log, 1, y.lastApplied + 1);
  }
}
