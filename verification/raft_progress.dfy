/** Replication makes progress: a leader that hears back from a peer brings the peer's log up to its own. */
module Progress {
  import opened RaftLogs
  import opened RaftNodes
  import opened RaftSystem
  import opened OneLeader
  import opened Replication

  // How far what the leader would send next lies past the end of the peer's log.
  function Gap(w: World, l: int, p: int): nat
    requires l in w.nodes && p in w.nodes
  {
    var beyond := Lookup(w.nodes[l].nextIndex, p) - |w.nodes[p].log|;
    if beyond > 0 then beyond else 0
  }

  // The exchanges of l with p whose reply arrived.
  function Heard(actions: seq<Action>, l: int, p: int): nat {
    if actions == [] then 0
    else Heard(actions[..|actions| - 1], l, p) + if actions[|actions| - 1] == Exchange(l, p, false) then 1 else 0
  }

  // A node that leads has won its last election, so it cannot win it again.
  predicate WonIfLeads(n: NodeState) {
    n.Leads() ==> n.ballot.election.won
  }

  lemma StepKeepsWon(n: NodeState, st: Step)
    requires Can(n, st) && WonIfLeads(n)
    ensures WonIfLeads(NodeAfter(n, st))
  {
    hide AnswerVote, AnswerAppend, CountAppend, Reset;
    HandlersKeep(n, st);
    match st
    case Answer(m) => AnswerKeepsElection(n, m);
    case Deliver(m) => AnswerAppendKeeps(n, m);
    case Ack(m) => AckKeepsWon(n, m.follower, m.sent, m.term, m.success);
    case _ =>
  }

  lemma AnswerKeepsElection(n: NodeState, m: Message)
    requires m.VoteRequest? && n.log != []
    ensures AnswerVote(n, m).0.ballot.election == n.ballot.election
  {
    hide Grants;
  }

  lemma AckKeepsWon(n: NodeState, p: int, sent: int, term: int, success: bool)
    requires WonIfLeads(n)
    ensures WonIfLeads(CountAppend(n, p, sent, term, success))
  {
    hide CommitTarget;
  }

  ghost predicate AllWon(w: World) {
    forall i <- w.nodes :: WonIfLeads(w.nodes[i])
  }

  lemma ActionKeepsWon(w: World, a: Action, i: int)
    requires Possible(w, a) && i in w.nodes && AllWon(w)
    ensures i in After(w, a).nodes && WonIfLeads(After(w, a).nodes[i])
  {
    hide NodeAfter, CountAppend, AnswerAppend, WonIfLeads;
    match a
    case Do(st) => StepKeepsWon(w.nodes[Actor(st)], st);
    case Exchange(l, p, lost) =>
      var r := Reply(w, a);
      AnswerKeepsWon(w.nodes[p], Request(w, a));
      AckKeepsWon(w.nodes[l], p, r.sent, r.term, r.success);
  }

  lemma AnswerKeepsWon(n: NodeState, m: Message)
    requires m.AppendRequest? && m.prevIndex >= -1 && WonIfLeads(n)
    ensures WonIfLeads(AnswerAppend(n, m).0)
  {
    AnswerAppendKeeps(n, m);
  }

  lemma {:induction false} WonRun(run: seq<World>, actions: seq<Action>, k: int)
    requires IsAtomicRun(run, actions) && Init(run[0]) && 0 <= k < |run|
    ensures AllWon(run[k])
  {
    hide After, Possible;
    if k > 0 {
      WonRun(run, actions, k - 1);
      var w, a := run[k - 1], actions[k - 1];
      assert Possible(w, a) && run[k] == After(w, a);
      AfterKeepsNodes(w, a);
      forall i <- run[k].nodes ensures WonIfLeads(run[k].nodes[i]) {
        ActionKeepsWon(w, a, i);
      }
    }
  }

  lemma AfterKeepsNodes(w: World, a: Action)
    requires Possible(w, a)
    ensures After(w, a).nodes.Keys == w.nodes.Keys
  {
    hide NodeAfter, CountAppend, AnswerAppend;
  }

  // Peer p has the leader's whole log, and has committed up to c at least.
  predicate Level(w: World, l: int, p: int, c: int) {
    l in w.nodes && p in w.nodes && w.nodes[p].log == w.nodes[l].log && w.nodes[p].commitIndex >= c
  }

  // Who accepts an exchange has then committed what the leader had when it sent the request.
  lemma AcceptedCommits(w: World, l: int, a: Action)
    requires Replaying(w, l) && Possible(w, a) && a.Exchange? && a.leader == l && Reply(w, a).success
    ensures PeerAfter(w, a).commitIndex == w.nodes[l].commitIndex
  {
    hide Replayed, Behind, Spliced;
    AnsweredHolds(w, l, a);
    CommitInside(w.nodes[l], AppliedBy(w.past, l));
    AnsweredIs(w, a);
  }

  lemma DoKeepsGap(w: World, l: int, st: Step, p: int)
    requires Tracking(w, l) && Possible(w, Do(st)) && OnlyLeads(Next(w, st), l) && l in w.nodes && p in w.nodes && p != l
    requires w.nodes[l].Leads() && w.nodes[l].ballot.election.won
    ensures l in Next(w, st).nodes && p in Next(w, st).nodes && Gap(Next(w, st), l, p) <= Gap(w, l, p)
  {
    hide NodeAfter, Behind, Replayed, TracksAll;
    LocalKeepsReplaying(w, l, st);
    LocalKnowledge(w.nodes[Actor(st)], st);
  }

  // What the leader makes of a refusal, if it still leads.
  lemma Refused(w: World, l: int, a: Action)
    requires Replaying(w, l) && Possible(w, a) && a.Exchange? && a == Exchange(l, a.peer, false) && !Reply(w, a).success
    requires w.nodes[l].Leads() && LeaderAfter(w, a).Leads()
    ensures var (next, length) := (Lookup(w.nodes[l].nextIndex, a.peer), |w.nodes[a.peer].log|);
            && 0 < length < next && Lookup(LeaderAfter(w, a).nextIndex, a.peer) == next - 1
    ensures PeerAfter(w, a).log == w.nodes[a.peer].log
  {
    hide Replayed, CutFrom, Copied, MaybeCommit, Spliced;
    assert |w.nodes[a.peer].log| > 0;
  }

  lemma HeardCloses(w: World, l: int, a: Action)
    requires Replaying(w, l) && Possible(w, a) && a.Exchange? && a == Exchange(l, a.peer, false) && OnlyLeads(After(w, a), l)
    requires w.nodes[l].Leads() && LeaderAfter(w, a).Leads()
    ensures l in After(w, a).nodes && a.peer in After(w, a).nodes
    ensures Level(After(w, a), l, a.peer, w.nodes[l].commitIndex) || Gap(After(w, a), l, a.peer) == Gap(w, l, a.peer) - 1
  {
    hide Behind, Possible, After, PeerAfter, LeaderAfter, Reply, Replayed;
    ExchangeShape(w, l, a);
    LeaderReplays(w, l, a);
    if Reply(w, a).success {
      AnsweredHolds(w, l, a);
      AnsweredIs(w, a);
      AcceptedCommits(w, l, a);
    } else {
      Refused(w, l, a);
    }
  }

  lemma AnsweredIs(w: World, a: Action)
    requires Possible(w, a) && a.Exchange?
    ensures a.peer in Answered(w, a).nodes && Answered(w, a).nodes[a.peer] == PeerAfter(w, a)
  {
    hide PeerAfter;
  }

  // An exchange that is with another peer, or whose reply is lost.
  lemma OtherKeepsGap(w: World, l: int, a: Action, p: int)
    requires Tracking(w, l) && Possible(w, a) && a.Exchange? && OnlyLeads(After(w, a), l) && p in w.nodes && p != l
    requires a.replyLost || a.peer != p
    requires w.nodes[l].Leads() && LeaderAfter(w, a).Leads()
    ensures l in After(w, a).nodes && p in After(w, a).nodes && Gap(After(w, a), l, p) <= Gap(w, l, p)
  {
    hide Behind, Possible, After, PeerAfter, LeaderAfter, Reply, Replayed, TracksAll;
    ExchangeShape(w, l, a);
    ExchangeKeepsReplaying(w, l, a);
    NextIndexOf(w, a, p);
  }

  lemma NextIndexOf(w: World, a: Action, p: int)
    requires Possible(w, a) && a.Exchange? && (a.replyLost || a.peer != p)
    ensures Lookup(LeaderAfter(w, a).nextIndex, p) == Lookup(w.nodes[a.leader].nextIndex, p)
  {
    hide Reply, CommitTarget;
  }

  lemma GapCloses(w: World, l: int, a: Action, p: int)
    requires Tracking(w, l) && Possible(w, a) && OnlyLeads(After(w, a), l) && l in w.nodes && p in w.nodes && p != l
    requires w.nodes[l].Leads() && w.nodes[l].ballot.election.won
    requires l in After(w, a).nodes && After(w, a).nodes[l].Leads()
    ensures p in After(w, a).nodes
    ensures Level(After(w, a), l, p, w.nodes[l].commitIndex) || Gap(After(w, a), l, p) + (if a == Exchange(l, p, false) then 1 else 0) <= Gap(w, l, p)
  {
    hide Behind, Possible, After, PeerAfter, LeaderAfter, Reply, Replayed, TracksAll, Gap, Level;
    match a
    case Do(st) =>
      DoIsNext(w, st);
      DoKeepsGap(w, l, st, p);
    case Exchange(_, q, lost) =>
      ExchangeShape(w, l, a);
      if q == p && !lost {
        HeardCloses(w, l, a);
      } else {
        OtherKeepsGap(w, l, a, p);
      }
  }

  lemma DoIsNext(w: World, st: Step)
    requires Possible(w, Do(st))
    ensures After(w, Do(st)) == Next(w, st)
  {
  }

  // At some moment after j and up to k, p has had the leader's whole log, and committed up to c.
  ghost predicate CaughtUp(run: seq<World>, l: int, p: int, c: int, j: int, k: int) {
    exists i :: 0 <= j < i <= k < |run| && Level(run[i], l, p, c)
  }

  // l leads from moment j to moment k.
  ghost predicate LeadsFrom(run: seq<World>, l: int, j: int, k: int) {
    0 <= j <= k < |run| && forall i :: j <= i <= k ==> l in run[i].nodes && run[i].nodes[l].Leads()
  }

  lemma GapStep(run: seq<World>, actions: seq<Action>, l: int, p: int, k: int)
    requires IsAtomicRun(run, actions) && Init(run[0]) && OnlyLeader(run, l) && l in run[0].nodes && p != l
    requires 0 < k < |run| && p in run[k - 1].nodes && LeadsFrom(run, l, k - 1, k)
    ensures p in run[k].nodes
    ensures Level(run[k], l, p, run[k - 1].nodes[l].commitIndex)
            || Gap(run[k], l, p) + (if actions[k - 1] == Exchange(l, p, false) then 1 else 0) <= Gap(run[k - 1], l, p)
  {
    hide Gap, Level, After, Possible, Init, OnlyLeads, Replaying, TracksAll;
    var w, a := run[k - 1], actions[k - 1];
    assert Possible(w, a) && run[k] == After(w, a) && OnlyLeads(run[k], l);
    TrackingRun(run, actions, l, k - 1);
    WonRun(run, actions, k - 1);
    assert WonIfLeads(w.nodes[l]);
    GapCloses(w, l, a, p);
  }

  // While l leads, each reply from p closes the gap by one, unless p has caught up.
  lemma {:induction false} GapShrinks(run: seq<World>, actions: seq<Action>, l: int, p: int, j: int, k: int)
    requires IsAtomicRun(run, actions) && Init(run[0]) && OnlyLeader(run, l) && l in run[0].nodes && p != l
    requires LeadsFrom(run, l, j, k) && p in run[j].nodes
    ensures p in run[k].nodes
    ensures CaughtUp(run, l, p, run[j].nodes[l].commitIndex, j, k)
            || Gap(run[k], l, p) + Heard(actions[j..k], l, p) <= Gap(run[j], l, p)
    decreases k
  {
    hide Gap, Level, After, Possible, Init, OnlyLeader, IsAtomicRun;
    RunLength(run, actions);
    if j < k {
      GapShrinks(run, actions, l, p, j, k - 1);
      GapStep(run, actions, l, p, k);
      CommitKept(run, actions, l, l, j, k - 1);
      LevelDown(run[k], l, p, run[k - 1].nodes[l].commitIndex, run[j].nodes[l].commitIndex);
      assert actions[j..k][..k - j - 1] == actions[j..k - 1] && actions[j..k][k - j - 1] == actions[k - 1];
    }
  }

  lemma LevelDown(w: World, l: int, p: int, c: int, d: int)
    requires d <= c
    ensures Level(w, l, p, c) ==> Level(w, l, p, d)
  {
  }

  lemma {:induction false} CommitKept(run: seq<World>, actions: seq<Action>, l: int, i: int, j: int, k: int)
    requires IsAtomicRun(run, actions) && Init(run[0]) && OnlyLeader(run, l) && l in run[0].nodes
    requires 0 <= j <= k < |run| && i in run[j].nodes
    ensures i in run[k].nodes && run[j].nodes[i].commitIndex <= run[k].nodes[i].commitIndex
    decreases k
  {
    hide IsAtomicRun, Init, OnlyLeader;
    RunLength(run, actions);
    if j < k {
      CommitKept(run, actions, l, i, j, k - 1);
      CommitOnlyGrows(run, actions, l, k - 1, i);
    }
  }

  lemma CommitsMeanwhile(run: seq<World>, actions: seq<Action>, l: int, p: int, c: int, j: int, k: int)
    requires IsAtomicRun(run, actions) && Init(run[0]) && OnlyLeader(run, l) && l in run[0].nodes
    requires CaughtUp(run, l, p, c, j, k)
    ensures p in run[k].nodes && run[k].nodes[p].commitIndex >= c
  {
    hide IsAtomicRun, Init, OnlyLeader;
    var i :| 0 <= j < i <= k < |run| && Level(run[i], l, p, c);
    CommitKept(run, actions, l, p, i, k);
  }

  lemma RunLength(run: seq<World>, actions: seq<Action>)
    requires IsAtomicRun(run, actions)
    ensures |run| == |actions| + 1
  {
  }

  /**
   While one node alone ever leads, with atomic exchanges: if the leader hears from a peer more often than what it
   would send next lies past the peer's log - which nextIndex replies always are - then the peer has had the leader's
   whole log meanwhile, and has committed all that the leader had committed at the beginning, whatever else happens and
   however many replies are lost.
   */
  lemma CatchesUp(run: seq<World>, actions: seq<Action>, l: int, p: int, j: int, k: int)
    requires IsAtomicRun(run, actions) && Init(run[0]) && OnlyLeader(run, l) && l in run[0].nodes
    requires LeadsFrom(run, l, j, k) && p in run[j].nodes[l].peers
    ensures p in run[j].nodes && Gap(run[j], l, p) < Lookup(run[j].nodes[l].nextIndex, p)
    ensures var c := run[j].nodes[l].commitIndex;
            Heard(actions[j..k], l, p) > Gap(run[j], l, p) ==>
              CaughtUp(run, l, p, c, j, k) && p in run[k].nodes && run[k].nodes[p].commitIndex >= c
  {
    hide After, Possible, Init, Level, Heard, CaughtUp;
    TrackingRun(run, actions, l, j);
    assert CanSend(run[j].nodes[l], p);
    GapShrinks(run, actions, l, p, j, k);
    if CaughtUp(run, l, p, run[j].nodes[l].commitIndex, j, k) {
      CommitsMeanwhile(run, actions, l, p, run[j].nodes[l].commitIndex, j, k);
    }
  }
}
