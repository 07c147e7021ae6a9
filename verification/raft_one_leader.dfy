/**
 Runs in which only one node ever leads, whatever the network does.  None of the hypotheses
 on vote counting, proposals and preceding terms is needed here.
 */
module OneLeader {
  import opened RaftLogs
  import opened RaftNodes
  import opened RaftSystem

  predicate OnlyLeads(w: World, l: int) {
    forall i <- w.nodes :: w.nodes[i].Leads() ==> i == l
  }

  ghost predicate OnlyLeader(run: seq<World>, l: int) {
    forall k :: 0 <= k < |run| ==> OnlyLeads(run[k], l)
  }

  // A request is l's, a slice of the log and not for its owner; and a reply is to one of these.
  ghost predicate CutFrom(m: Message, l: int, log: Log) {
    && (m.AppendReply? ==> m.leader == l)
    && (m.AppendRequest? ==>
      && m.leader == l != m.to && 0 <= m.prevIndex && m.prevIndex + 1 + |m.entries| <= |log|
      && m.entries == log[m.prevIndex + 1..m.prevIndex + 1 + |m.entries|])
  }

  predicate Copied(es: Log, log: Log) {
    forall e <- es :: 0 <= e.index < |log| && e == log[e.index]
  }

  // All the node would send next is within its log or just past it, to every peer if it leads.
  ghost predicate SendsInside(n: NodeState) {
    && (forall p <- n.nextIndex :: CanSend(n, p))
    && (n.Leads() ==> n.peers <= n.nextIndex.Keys)
  }

  ghost predicate LogsBehind(w: World, l: int) {
    && WellFormed(w) && l in w.nodes && OnlyLeads(w, l)
    && WellIndexed(w.nodes[l].log)
    && (forall i <- w.nodes :: 0 < |w.nodes[i].log| && w.nodes[i].log <= w.nodes[l].log)
    && SendsInside(w.nodes[l])
    // a node that never led has nothing to send
    && (forall i <- w.nodes :: i != l ==> w.nodes[i].nextIndex == map[])
  }

  ghost predicate Behind(w: World, l: int) {
    && LogsBehind(w, l)
    && (forall m <- w.net :: CutFrom(m, l, w.nodes[l].log))
    && (forall i <- w.past.applied :: Copied(w.past.applied[i], w.nodes[l].log))
  }

  // Where a run may start: all logs are prefixes of l's, nothing was sent or applied yet.
  ghost predicate StartsBehind(w: World, l: int) {
    LogsBehind(w, l) && w.net == {} && w.past.applied == map[]
  }

  // All steps that touch no log.
  predicate KeepsLog(n: NodeState, st: Step)
    requires Can(n, st)
  {
    !(st.Take? && n.Leads()) && !(st.Deliver? && Accepts(n, st.m))
  }

  lemma LogKept(n: NodeState, st: Step)
    requires Can(n, st) && KeepsLog(n, st) && n.log != []
    ensures NodeAfter(n, st).log == n.log
  {
    hide CommitTarget, AnswerVote, CountVote, CountAppend;
    HandlersKeep(n, st);
  }

  lemma AckSends(n: NodeState, st: Step)
    requires Can(n, st) && st.Ack? && n.log != [] && SendsInside(n)
    ensures SendsInside(NodeAfter(n, st))
  {
    hide CommitTarget;
  }

  lemma SendingKept(n: NodeState, st: Step)
    requires Can(n, st) && KeepsLog(n, st) && n.log != [] && SendsInside(n)
    ensures SendsInside(NodeAfter(n, st))
  {
    hide CommitTarget, AnswerVote, AnswerAppend, CountAppend;
    HandlersKeep(n, st);
    LogKept(n, st);
    if st.Ack? {
      AckSends(n, st);
    }
  }

  // Only a win or a reply to its own request gives a node something to send.
  lemma NothingToSend(n: NodeState, st: Step)
    requires Can(n, st) && n.nextIndex == map[] && !n.Leads() && !NodeAfter(n, st).Leads() && !st.Ack?
    ensures NodeAfter(n, st).nextIndex == map[]
  {
  }

  lemma SentCut(n: NodeState, st: Step, l: int, log: Log)
    requires Can(n, st) && n.log == log
    requires st.Send? ==> n.id == l && st.peer != l && CanSend(n, st.peer)
    requires st.Deliver? && st.m.AppendRequest? ==> st.m.leader == l
    ensures forall m <- Sent(n, st) :: CutFrom(m, l, log)
  {
  }

  lemma AppliedCopied(n: NodeState, st: Step, log: Log)
    requires WellIndexed(log) && n.log <= log
    ensures Copied(Applies(n, st), log)
  {
  }

  lemma CutLater(m: Message, l: int, log: Log, longer: Log)
    requires CutFrom(m, l, log) && log <= longer
    ensures CutFrom(m, l, longer)
  {
    if m.AppendRequest? {
      var to := m.prevIndex + 1 + |m.entries|;
      assert longer[..|log|] == log;
      assert longer[m.prevIndex + 1..to] == log[m.prevIndex + 1..to];
    }
  }

  // An accepted request leaves the follower with a prefix of the leader's log.
  lemma DeliveredPrefix(n: NodeState, m: Message, l: int, log: Log)
    requires WellIndexed(log) && n.log <= log && m.AppendRequest? && CutFrom(m, l, log) && Accepts(n, m)
    ensures var to := m.prevIndex + 1 + |m.entries|;
            0 < to <= |log| && AnswerAppend(n, m).0.log == log[..to]
  {
    SplicedSlice(n.log, log, m.prevIndex, m.prevIndex + 1 + |m.entries|);
  }

  lemma ActorLog(w: World, l: int, st: Step)
    requires Behind(w, l) && Enabled(w, st)
    ensures var i := Actor(st);
            var n' := NodeAfter(w.nodes[i], st);
            if i == l then w.nodes[l].log <= n'.log && WellIndexed(n'.log)
            else 0 < |n'.log| && n'.log <= w.nodes[l].log
  {
    var i := Actor(st);
    var n := w.nodes[i];
    if KeepsLog(n, st) {
      LogKept(n, st);
    } else if st.Deliver? {
      assert CutFrom(st.m, l, w.nodes[l].log);
      DeliveredPrefix(n, st.m, l, w.nodes[l].log);
    }
  }

  lemma ActorSends(w: World, l: int, st: Step)
    requires Behind(w, l) && Enabled(w, st) && OnlyLeads(Next(w, st), l)
    ensures if Actor(st) == l then SendsInside(NodeAfter(w.nodes[l], st))
            else NodeAfter(w.nodes[Actor(st)], st).nextIndex == map[]
  {
    var n := w.nodes[Actor(st)];
    assert (st.Deliver? || st.Ack?) ==> CutFrom(st.m, l, w.nodes[l].log);
    if Actor(st) != l {
      assert Next(w, st).nodes[Actor(st)] == NodeAfter(n, st);
      NothingToSend(n, st);
    } else if KeepsLog(n, st) {
      SendingKept(n, st);
    }
  }

  lemma SentBehind(w: World, l: int, st: Step)
    requires Behind(w, l) && Enabled(w, st)
    ensures forall m <- Sent(w.nodes[Actor(st)], st) :: CutFrom(m, l, w.nodes[l].log)
  {
    assert st.Deliver? ==> CutFrom(st.m, l, w.nodes[l].log);
    if st.Send? {
      SentCut(w.nodes[l], st, l, w.nodes[l].log);
    }
  }

  lemma LogsStayBehind(w: World, l: int, st: Step)
    requires Behind(w, l) && Enabled(w, st) && OnlyLeads(Next(w, st), l)
    ensures l in w.nodes && LogsBehind(Next(w, st), l) && l in Next(w, st).nodes
    ensures w.nodes[l].log <= Next(w, st).nodes[l].log
  {
    hide NodeAfter, Can, Sent, PastAfter, CutFrom, Copied, SendsInside;
    WellFormedStep(w, st);
    ActorLog(w, l, st);
    ActorSends(w, l, st);
    forall i <- w.nodes | i != Actor(st) ensures w.nodes[i].log <= Next(w, st).nodes[l].log {
      assert w.nodes[i].log <= w.nodes[l].log;
    }
  }

  lemma BehindStep(w: World, l: int, st: Step)
    requires Behind(w, l) && Enabled(w, st) && OnlyLeads(Next(w, st), l)
    ensures Behind(Next(w, st), l)
  {
    hide NodeAfter, Can, LogsBehind, CutFrom, Copied;
    var w', i := Next(w, st), Actor(st);
    LogsStayBehind(w, l, st);
    SentBehind(w, l, st);
    forall m <- w'.net ensures CutFrom(m, l, w'.nodes[l].log) {
      CutLater(m, l, w.nodes[l].log, w'.nodes[l].log);
    }
    AppliedBehind(w, l, st);
  }

  lemma AppliedBehind(w: World, l: int, st: Step)
    requires Behind(w, l) && Enabled(w, st) && w.nodes[l].log <= Next(w, st).nodes[l].log
    ensures forall j <- Next(w, st).past.applied :: Copied(Next(w, st).past.applied[j], Next(w, st).nodes[l].log)
  {
    AppliedCopied(w.nodes[Actor(st)], st, w.nodes[l].log);
  }

  lemma StartIsBehind(w: World, l: int)
    requires StartsBehind(w, l)
    ensures Behind(w, l)
  {
    hide LogsBehind, CutFrom, Copied;
  }

  lemma {:induction false} BehindRun(run: seq<World>, steps: seq<Step>, l: int, k: int)
    requires IsRun(run, steps) && StartsBehind(run[0], l) && OnlyLeader(run, l) && 0 <= k < |run|
    ensures Behind(run[k], l)
  {
    hide Next, Enabled, LogsBehind, CutFrom, Copied;
    if k == 0 {
      StartIsBehind(run[0], l);
    } else {
      BehindRun(run, steps, l, k - 1);
      assert OnlyLeads(run[k], l) && Enabled(run[k - 1], steps[k - 1]) && run[k] == Next(run[k - 1], steps[k - 1]);
      BehindStep(run[k - 1], l, steps[k - 1]);
    }
  }

  /**
   While one node alone ever leads, with messages lost, repeated and reordered at will and sent even
   after it stepped down, every log is a prefix of the leader's, entries know their positions, and what
   the leader would send next to any peer lies past its sentinel.
   */
  lemma FollowersArePrefixes(run: seq<World>, steps: seq<Step>, l: int, k: int, i: int)
    requires IsRun(run, steps) && StartsBehind(run[0], l) && OnlyLeader(run, l) && 0 <= k < |run|
    requires i in run[k].nodes
    ensures l in run[k].nodes && run[k].nodes[i].log <= run[k].nodes[l].log
    ensures WellIndexed(run[k].nodes[i].log)
    ensures run[k].nodes[l].Leads() ==>
              forall p <- run[k].nodes[l].peers :: p in run[k].nodes[l].nextIndex && run[k].nodes[l].nextIndex[p] >= 1
  {
    BehindRun(run, steps, l, k);
  }

  /** In such runs no two nodes ever apply different entries at one index. */
  lemma NoConflictingApplies(run: seq<World>, steps: seq<Step>, l: int, k: int, a: int, b: int, x: LogEntry, y: LogEntry)
    requires IsRun(run, steps) && StartsBehind(run[0], l) && OnlyLeader(run, l) && 0 <= k < |run|
    requires x in AppliedBy(run[k].past, a) && y in AppliedBy(run[k].past, b) && x.index == y.index
    ensures x == y
  {
    BehindRun(run, steps, l, k);
    assert Copied(run[k].past.applied[a], run[k].nodes[l].log) && Copied(run[k].past.applied[b], run[k].nodes[l].log);
  }
}
