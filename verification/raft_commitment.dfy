/** A leader commits what it appends: as soon as enough peers have answered often enough. */
module Commitment {
  import opened Basics
  import opened GroupFsm
  import opened RaftLogs
  import opened RaftNodes
  import opened RaftSystem
  import opened OneLeader
  import opened Replication
  import opened Progress

  // The node has an entry of its current term t at idx.
  predicate HasOwn(n: NodeState, idx: int, t: int) {
    0 <= idx < |n.log| && n.log[idx].term == t == n.currentTerm()
  }

  // The peers of which the leader knows that they have index idx.
  function Knowers(n: NodeState, idx: int): set<int> {
    set p | p in n.matchIndex && n.matchIndex[p] >= idx
  }

  // What enough peers are known to have is committed.
  predicate CommitsKnown(n: NodeState, idx: int) {
    Knowers(n, idx) != {} && 2 * (1 + |Knowers(n, idx)|) >= 1 + |n.peers| ==> n.commitIndex >= idx
  }

  // p is known to have idx, or will be sent it; and `heard` answers have closed the gap to p by as much.
  ghost predicate Awaited(w: World, l: int, p: int, idx: int, gap: int, heard: int)
    requires l in w.nodes && p in w.nodes
  {
    p in Knowers(w.nodes[l], idx) || (Lookup(w.nodes[l].nextIndex, p) <= idx && Gap(w, l, p) + heard <= gap)
  }

  // The leader goes on as before, its log perhaps longer.
  predicate GoesOn(n: NodeState, n': NodeState) {
    n.log <= n'.log && n'.currentTerm() == n.currentTerm() && n'.peers == n.peers && n'.Leads()
  }

  // It has learnt nothing new of its peers, and sends no later entries.
  ghost predicate Unmoved(n: NodeState, n': NodeState) {
    && n'.matchIndex == n.matchIndex && n'.commitIndex == n.commitIndex
    && forall q :: Lookup(n'.nextIndex, q) <= Lookup(n.nextIndex, q)
  }

  lemma TermKept(n: NodeState, st: Step)
    requires Can(n, st) && n.Leads() && n.ballot.election.won && NodeAfter(n, st).Leads()
    ensures NodeAfter(n, st).currentTerm() == n.currentTerm() && !Wins(n, st)
  {
    hide AnswerVote, AnswerAppend, CountAppend, Reset, Majority;
    HandlersKeep(n, st);
    if st.Ack? {
      AckKeepsTerm(n, st.m.follower, st.m.sent, st.m.term, st.m.success);
    }
  }

  lemma AckKeepsTerm(n: NodeState, p: int, sent: int, term: int, success: bool)
    requires n.Leads() && CountAppend(n, p, sent, term, success).Leads()
    ensures CountAppend(n, p, sent, term, success).ballot == n.ballot && term <= n.currentTerm()
  {
    hide CommitTarget;
  }

  lemma StepGoesOn(w: World, l: int, st: Step)
    requires Tracking(w, l) && Possible(w, Do(st)) && OnlyLeads(Next(w, st), l) && l in w.nodes
    requires w.nodes[l].Leads() && w.nodes[l].ballot.election.won && l in Next(w, st).nodes && Next(w, st).nodes[l].Leads()
    ensures GoesOn(w.nodes[l], Next(w, st).nodes[l]) && Unmoved(w.nodes[l], Next(w, st).nodes[l])
  {
    hide NodeAfter, Behind, Replayed, TracksAll;
    LocalKeepsReplaying(w, l, st);
    if Actor(st) == l {
      TermKept(w.nodes[l], st);
      NodeKeepsIdentity(w.nodes[l], st);
      LocalKnowledge(w.nodes[l], st);
    }
  }

  // The leader after an exchange: it has learnt nothing, or all about this one peer.
  lemma ExchangeGoesOn(w: World, l: int, a: Action)
    requires Tracking(w, l) && Possible(w, a) && a.Exchange? && l in w.nodes && a.leader == l
    requires w.nodes[l].Leads() && LeaderAfter(w, a).Leads()
    ensures var n, n' := w.nodes[l], LeaderAfter(w, a);
            GoesOn(n, n') && (Unmoved(n, n') || Moved(n, n', a.peer))
  {
    hide Reply, CommitTarget, Behind, Replayed, TracksAll;
    if !a.replyLost {
      var r := Reply(w, a);
      AckKeepsTerm(w.nodes[l], a.peer, r.sent, r.term, r.success);
    }
  }

  // A peer that had less than the leader was going to send it, and has taken it, is known to have it all.
  lemma SuccessMoves(w: World, l: int, a: Action)
    requires Possible(w, a) && a.Exchange? && a.leader == l && !a.replyLost && Reply(w, a).success
    requires w.nodes[l].Leads() && LeaderAfter(w, a).Leads() && Lookup(w.nodes[l].nextIndex, a.peer) < |w.nodes[l].log|
    ensures Moved(w.nodes[l], LeaderAfter(w, a), a.peer)
  {
    hide CommitTarget, Spliced;
  }

  lemma MovedCommits(n: NodeState, n': NodeState, q: int, idx: int, t: int)
    requires Moved(n, n', q) && HasOwn(n, idx, t) && n'.matchIndex.Keys <= n'.peers
    ensures CommitsKnown(n', idx) && q in Knowers(n', idx) && Knowers(n, idx) <= Knowers(n', idx)
  {
    hide MaybeCommit;
    var n1 := Informed(n, q);
    CommitTargetKeeps(n1);
    CommitIsGreatestHeld(n1, n'.commitIndex);
    CommitKeepsLog(n1);
    assert Knowers(n', idx) == set p | p in n1.matchIndex && n1.matchIndex[p] >= idx;
    assert 2 * (1 + |Knowers(n', idx)|) >= 1 + |n'.peers| ==> HeldByHalf(n1, idx);
  }

  lemma CommitKeepsLog(n: NodeState)
    ensures MaybeCommit(n).log == n.log
  {
  }

  lemma UnmovedKnowers(n: NodeState, n': NodeState, idx: int)
    requires Unmoved(n, n') && n'.peers == n.peers && CommitsKnown(n, idx)
    ensures Knowers(n', idx) == Knowers(n, idx) && CommitsKnown(n', idx)
  {
  }

  // Whatever happens, if l leads on.
  lemma LeaderGoesOn(w: World, l: int, a: Action, idx: int, t: int)
    requires Tracking(w, l) && Possible(w, a) && OnlyLeads(After(w, a), l) && l in w.nodes && TracksAll(After(w, a), l)
    requires w.nodes[l].Leads() && w.nodes[l].ballot.election.won && l in After(w, a).nodes && After(w, a).nodes[l].Leads()
    requires HasOwn(w.nodes[l], idx, t) && CommitsKnown(w.nodes[l], idx)
    ensures HasOwn(After(w, a).nodes[l], idx, t) && CommitsKnown(After(w, a).nodes[l], idx)
    ensures After(w, a).nodes[l].peers == w.nodes[l].peers && Knowers(w.nodes[l], idx) <= Knowers(After(w, a).nodes[l], idx)
  {
    hide Behind, Possible, After, PeerAfter, LeaderAfter, Reply, Replayed, Moved, Unmoved, CommitsKnown, Knowers;
    var n, n' := w.nodes[l], After(w, a).nodes[l];
    if a.Do? {
      DoIsNext(w, a.st);
      StepGoesOn(w, l, a.st);
      UnmovedKnowers(n, n', idx);
    } else {
      ExchangeShape(w, l, a);
      ExchangeGoesOn(w, l, a);
      if Unmoved(n, n') {
        UnmovedKnowers(n, n', idx);
      } else {
        MovedCommits(n, n', a.peer, idx, t);
      }
    }
  }

  lemma AwaitedOn(w: World, l: int, a: Action, p: int, idx: int, t: int, gap: int, heard: int)
    requires Tracking(w, l) && Possible(w, a) && OnlyLeads(After(w, a), l) && l in w.nodes && TracksAll(After(w, a), l)
    requires p in w.nodes && p != l && p in After(w, a).nodes
    requires w.nodes[l].Leads() && w.nodes[l].ballot.election.won && l in After(w, a).nodes && After(w, a).nodes[l].Leads()
    requires HasOwn(w.nodes[l], idx, t) && CommitsKnown(w.nodes[l], idx) && Awaited(w, l, p, idx, gap, heard)
    ensures Awaited(After(w, a), l, p, idx, gap, heard + if a == Exchange(l, p, false) then 1 else 0)
  {
    hide Behind, Possible, After, PeerAfter, LeaderAfter, Reply, Replayed, Gap, TracksAll, Knowers, CommitsKnown;
    LeaderGoesOn(w, l, a, idx, t);
    if p !in Knowers(w.nodes[l], idx) {
      if a == Exchange(l, p, false) {
        HeardOn(w, l, a, idx, t);
      } else {
        OtherOn(w, l, a, p, idx, t);
      }
    }
  }

  lemma HeardOn(w: World, l: int, a: Action, idx: int, t: int)
    requires Tracking(w, l) && Possible(w, a) && OnlyLeads(After(w, a), l) && l in w.nodes && TracksAll(After(w, a), l)
    requires a.Exchange? && a == Exchange(l, a.peer, false)
    requires w.nodes[l].Leads() && l in After(w, a).nodes && After(w, a).nodes[l].Leads()
    requires HasOwn(w.nodes[l], idx, t) && Lookup(w.nodes[l].nextIndex, a.peer) <= idx
    ensures a.peer in w.nodes && a.peer in After(w, a).nodes
    ensures a.peer in Knowers(After(w, a).nodes[l], idx)
            || (Lookup(After(w, a).nodes[l].nextIndex, a.peer) <= idx && Gap(After(w, a), l, a.peer) == Gap(w, l, a.peer) - 1)
  {
    hide Behind, Possible, After, PeerAfter, LeaderAfter, Reply, Replayed, Knowers, CommitsKnown, TracksAll;
    ExchangeShape(w, l, a);
    if Reply(w, a).success {
      SuccessMoves(w, l, a);
      AfterTracksKeys(w, l, a);
      MovedCommits(w.nodes[l], LeaderAfter(w, a), a.peer, idx, t);
    } else {
      Refused(w, l, a);
    }
  }

  lemma AfterTracksKeys(w: World, l: int, a: Action)
    requires Possible(w, a) && l in After(w, a).nodes && TracksAll(After(w, a), l)
    ensures After(w, a).nodes[l].matchIndex.Keys <= After(w, a).nodes[l].peers
  {
    hide After, Possible;
  }

  lemma OtherOn(w: World, l: int, a: Action, p: int, idx: int, t: int)
    requires Tracking(w, l) && Possible(w, a) && OnlyLeads(After(w, a), l) && l in w.nodes && p in w.nodes && p != l
    requires w.nodes[l].Leads() && w.nodes[l].ballot.election.won && l in After(w, a).nodes && After(w, a).nodes[l].Leads()
    requires a != Exchange(l, p, false) && Lookup(w.nodes[l].nextIndex, p) <= idx
    ensures p in After(w, a).nodes
    ensures Lookup(After(w, a).nodes[l].nextIndex, p) <= idx && Gap(After(w, a), l, p) <= Gap(w, l, p)
  {
    hide Behind, Possible, After, PeerAfter, LeaderAfter, Reply, Replayed, TracksAll, Gap;
    if a.Do? {
      DoIsNext(w, a.st);
      DoKeepsGap(w, l, a.st, p);
      StepGoesOn(w, l, a.st);
    } else {
      ExchangeShape(w, l, a);
      OtherKeepsGap(w, l, a, p);
      NextIndexOf(w, a, p);
    }
  }

  // From moment j on the leader holds the entry, commits it once known, and each answer brings it nearer.
  ghost predicate OnTheWay(run: seq<World>, actions: seq<Action>, l: int, j: int, i: int, idx: int, t: int)
    requires 0 <= j <= i < |run| && |run| == |actions| + 1 && l in run[j].nodes && l in run[i].nodes
  {
    && run[i].nodes[l].peers == run[j].nodes[l].peers
    && HasOwn(run[i].nodes[l], idx, t) && CommitsKnown(run[i].nodes[l], idx)
    && forall p <- run[j].nodes[l].peers ::
         p in run[j].nodes && p in run[i].nodes && p != l
         && Awaited(run[i], l, p, idx, Gap(run[j], l, p), Heard(actions[j..i], l, p))
  }

  lemma OnTheWayStep(run: seq<World>, actions: seq<Action>, l: int, j: int, i: int, idx: int, t: int)
    requires IsAtomicRun(run, actions) && Init(run[0]) && OnlyLeader(run, l) && l in run[0].nodes
    requires 0 <= j < i < |run| && LeadsFrom(run, l, j, i) && OnTheWay(run, actions, l, j, i - 1, idx, t)
    ensures OnTheWay(run, actions, l, j, i, idx, t)
  {
    hide After, Possible, Init, Replaying, HasOwn, CommitsKnown, Awaited, Heard, Gap;
    var w, a := run[i - 1], actions[i - 1];
    assert Possible(w, a) && run[i] == After(w, a) && OnlyLeads(run[i], l);
    TrackingRun(run, actions, l, i - 1);
    TrackingRun(run, actions, l, i);
    WonRun(run, actions, i - 1);
    assert WonIfLeads(w.nodes[l]);
    AfterKeepsNodes(w, a);
    LeaderGoesOn(w, l, a, idx, t);
    forall p <- run[j].nodes[l].peers
      ensures p in run[i].nodes && Awaited(run[i], l, p, idx, Gap(run[j], l, p), Heard(actions[j..i], l, p))
    {
      AwaitedOn(w, l, a, p, idx, t, Gap(run[j], l, p), Heard(actions[j..i - 1], l, p));
      HeardOneMore(actions, l, p, j, i);
    }
  }

  lemma HeardOneMore(actions: seq<Action>, l: int, p: int, j: int, i: int)
    requires 0 <= j < i <= |actions|
    ensures Heard(actions[j..i], l, p) == Heard(actions[j..i - 1], l, p) + if actions[i - 1] == Exchange(l, p, false) then 1 else 0
  {
    assert actions[j..i][..i - j - 1] == actions[j..i - 1] && actions[j..i][i - j - 1] == actions[i - 1];
  }

  lemma {:induction false} OnTheWayRun(run: seq<World>, actions: seq<Action>, l: int, j: int, i: int, idx: int, t: int)
    requires IsAtomicRun(run, actions) && Init(run[0]) && OnlyLeader(run, l) && l in run[0].nodes
    requires 0 <= j <= i < |run| && LeadsFrom(run, l, j, i) && OnTheWay(run, actions, l, j, j, idx, t)
    ensures OnTheWay(run, actions, l, j, i, idx, t)
    decreases i
  {
    hide IsAtomicRun, Init, OnlyLeader, OnTheWay;
    if j < i {
      OnTheWayRun(run, actions, l, j, i - 1, idx, t);
      OnTheWayStep(run, actions, l, j, i, idx, t);
    }
  }

  // The leader takes up a proposal of its own term at moment j - 1: at moment j it has the new entry.
  lemma TakenIsOnTheWay(run: seq<World>, actions: seq<Action>, l: int, j: int)
    requires IsAtomicRun(run, actions) && Init(run[0]) && OnlyLeader(run, l) && l in run[0].nodes
    requires 0 < j < |run| && l in run[j - 1].nodes && run[j - 1].nodes[l].Leads() && actions[j - 1] == Do(Take(l))
    requires run[j - 1].nodes[l].proposals != [] && run[j - 1].nodes[l].proposals[0].term == run[j - 1].nodes[l].currentTerm()
    ensures l in run[j].nodes
    ensures OnTheWay(run, actions, l, j, j, |run[j - 1].nodes[l].log|, run[j - 1].nodes[l].currentTerm())
  {
    hide Init, IsAtomicRun, OnlyLeader, Tracking, Awaited, CommitsKnown, Gap;
    var w, n, idx := run[j - 1], run[j - 1].nodes[l], |run[j - 1].nodes[l].log|;
    TrackingRun(run, actions, l, j - 1);
    TakeIs(run, actions, l, j);
    var n' := run[j].nodes[l];
    NoneKnows(w, l, idx);
    assert Knowers(n', idx) == {};
    NothingKnown(n', idx);
    forall p <- n.peers ensures p in run[j].nodes && p != l && Awaited(run[j], l, p, idx, Gap(run[j], l, p), 0) {
      SentFrom(w, l, p);
      StillAwaited(run[j], l, p, idx);
    }
    RunLength(run, actions);
    assert actions[j..j] == [];
  }

  // Of the place after its last entry a leader knows nothing, and it will not send from beyond.
  lemma NoneKnows(w: World, l: int, idx: int)
    requires Tracking(w, l) && l in w.nodes && w.nodes[l].Leads() && idx == |w.nodes[l].log|
    ensures Knowers(w.nodes[l], idx) == {}
  {
    hide Replayed;
    var n := w.nodes[l];
    forall p ensures p !in Knowers(n, idx) {
      if p in n.matchIndex {
        assert p in n.peers && Tracks(n, p, w.nodes[p].log);
      }
    }
  }

  lemma SentFrom(w: World, l: int, p: int)
    requires Tracking(w, l) && l in w.nodes && w.nodes[l].Leads() && p in w.nodes[l].peers
    ensures p in w.nodes && p != l && Lookup(w.nodes[l].nextIndex, p) <= |w.nodes[l].log|
  {
    hide Replayed;
    var n := w.nodes[l];
    assert Tracks(n, p, w.nodes[p].log) && CanSend(n, p);
  }

  lemma NothingKnown(n: NodeState, idx: int)
    requires Knowers(n, idx) == {}
    ensures CommitsKnown(n, idx)
  {
  }

  lemma StillAwaited(w: World, l: int, p: int, idx: int)
    requires l in w.nodes && p in w.nodes && Lookup(w.nodes[l].nextIndex, p) <= idx
    ensures Awaited(w, l, p, idx, Gap(w, l, p), 0)
  {
  }

  lemma TakeIs(run: seq<World>, actions: seq<Action>, l: int, j: int)
    requires IsAtomicRun(run, actions) && 0 < j < |run| && actions[j - 1] == Do(Take(l))
    requires l in run[j - 1].nodes && run[j - 1].nodes[l].Leads()
    ensures run[j - 1].nodes[l].proposals != [] && l in run[j].nodes
    ensures var n := run[j - 1].nodes[l];
            run[j].nodes[l] == n.(log := Appended(n.log, n.proposals[0]), proposals := n.proposals[1..])
    ensures run[j].nodes.Keys == run[j - 1].nodes.Keys
  {
    assert Possible(run[j - 1], actions[j - 1]) && run[j] == After(run[j - 1], actions[j - 1]);
  }

  /**
   What a leader appends in its own term it commits, in runs with one leader and atomic exchanges: once a set of peers
   that with it make half of the nodes have each answered more often than their gap was, if it leads on, whatever else
   happens and however many answers are lost.
   */
  lemma LeaderCommits(run: seq<World>, actions: seq<Action>, l: int, j: int, k: int, answered: set<int>)
    requires IsAtomicRun(run, actions) && Init(run[0]) && OnlyLeader(run, l) && l in run[0].nodes
    requires 0 < j && LeadsFrom(run, l, j - 1, k) && j <= k && actions[j - 1] == Do(Take(l))
    requires var n := run[j - 1].nodes[l]; n.proposals != [] && n.proposals[0].term == n.currentTerm()
    requires answered != {} && answered <= run[j - 1].nodes[l].peers && 2 * (1 + |answered|) >= |run[j - 1].nodes|
    requires forall p <- answered :: p in run[j].nodes && l in run[j].nodes && Heard(actions[j..k], l, p) > Gap(run[j], l, p)
    ensures run[k].nodes[l].commitIndex >= |run[j - 1].nodes[l].log|
  {
    hide Init, HasOwn, Heard, Gap;
    var idx, t := |run[j - 1].nodes[l].log|, run[j - 1].nodes[l].currentTerm();
    TakenIsOnTheWay(run, actions, l, j);
    TakeIs(run, actions, l, j);
    OnTheWayRun(run, actions, l, j, k, idx, t);
    var n := run[k].nodes[l];
    forall p <- answered ensures p in Knowers(n, idx) {
      assert Awaited(run[k], l, p, idx, Gap(run[j], l, p), Heard(actions[j..k], l, p));
    }
    SubsetSize(answered, Knowers(n, idx));
    TrackingRun(run, actions, l, j - 1);
    PeersOf(run[j - 1], l);
  }

  lemma PeersOf(w: World, l: int)
    requires WellFormed(w) && l in w.nodes
    ensures |w.nodes| == 1 + |w.nodes[l].peers|
  {
    assert w.nodes.Keys == w.nodes[l].peers + {l};
    assert |w.nodes.Keys| == |w.nodes|;
  }

  /** The success that makes the last entry known to half of the nodes, if that is of the leader's own term, commits it. */
  lemma SuccessCommitsLast(n: NodeState, p: int, sent: int, term: int)
    requires n.log != [] && n.commitIndex < |n.log| && HasOwn(n, |n.log| - 1, n.currentTerm())
    requires sent > 0 && term <= n.currentTerm()
    requires 2 * (1 + |Knowers(n, |n.log| - 1) + {p}|) >= 1 + |n.peers|
    ensures CountAppend(n, p, sent, term, true).commitIndex == |n.log| - 1
  {
    hide MaybeCommit;
    var last, n1 := |n.log| - 1, Informed(n, p);
    assert Knowers(n, last) + {p} == set q | q in n1.matchIndex && n1.matchIndex[q] >= last;
    assert HeldByHalf(n1, last);
    CommitIsGreatestHeld(n1, MaybeCommit(n1).commitIndex);
  }

  // The node after k rounds of the apply loop.
  function Rounds(n: NodeState, k: nat): NodeState {
    if k == 0 then n else ApplyNext(Rounds(n, k - 1))
  }

  lemma ReplayedIsPrefix(n: NodeState, applied: Log)
    requires Replayed(n, applied)
    ensures 0 <= n.lastApplied <= n.commitIndex < |n.log| && applied == n.log[1..n.lastApplied + 1]
  {
  }

  lemma OneRound(n: NodeState)
    requires 0 <= n.lastApplied <= n.commitIndex < |n.log| && Replayed(n, n.log[1..n.lastApplied + 1])
    ensures var n' := ApplyNext(n);
            && n'.lastApplied == Min(n.lastApplied + 1, n.commitIndex) && n'.log == n.log && n'.commitIndex == n.commitIndex
            && Replayed(n', n.log[1..n'.lastApplied + 1])
  {
    hide Replay;
    if n.lastApplied < n.commitIndex {
      ReplayOneMore(n.log[1..n.lastApplied + 1], n.log[n.lastApplied + 1]);
      SliceOneMore(n.log, 1, n.lastApplied + 1);
    }
  }

  /** The apply loop gets everything committed applied, in as many rounds as there are entries, and stops there. */
  lemma {:induction false} RoundsApply(n: NodeState, applied: Log, k: nat)
    requires Replayed(n, applied)
    ensures var n' := Rounds(n, k);
            && n'.lastApplied == Min(n.lastApplied + k, n.commitIndex) && n'.log == n.log && n'.commitIndex == n.commitIndex
            && Replayed(n', n.log[1..n'.lastApplied + 1])
  {
    hide ApplyNext, Replayed;
    ReplayedIsPrefix(n, applied);
    if k > 0 {
      RoundsApply(n, applied, k - 1);
      OneRound(Rounds(n, k - 1));
    }
  }
}
