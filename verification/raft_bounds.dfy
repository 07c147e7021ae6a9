/** What holds in every run, whatever the network does and without any hypothesis: no handler indexes outside a log. */
module Bounds {
  import opened RaftNodes
  import opened RaftSystem

  // The node's log has its sentinel, what it would send next lies past that, and a leader has somewhere to send.
  predicate NodeInBounds(n: NodeState) {
    && n.log != []
    && (forall p <- n.nextIndex :: n.nextIndex[p] >= 1)
    && (n.Leads() ==> n.peers <= n.nextIndex.Keys)
  }

  ghost predicate InBounds(w: World) {
    && (forall i <- w.nodes :: NodeInBounds(w.nodes[i]))
    && (forall m <- w.net :: m.AppendRequest? ==> m.prevIndex >= 0)
  }

  lemma AppendStaysInBounds(n: NodeState, st: Step)
    requires NodeInBounds(n) && Can(n, st) && (st.Deliver? || st.Ack?) && (st.Deliver? ==> st.m.prevIndex >= 0)
    ensures NodeInBounds(NodeAfter(n, st))
    ensures forall m <- Sent(n, st) :: !m.AppendRequest?
  {
    hide CommitTarget;
  }

  lemma NodeStaysInBounds(n: NodeState, st: Step)
    requires NodeInBounds(n) && Can(n, st) && (st.Deliver? && st.m.AppendRequest? ==> st.m.prevIndex >= 0)
    ensures NodeInBounds(NodeAfter(n, st))
    ensures forall m <- Sent(n, st) :: m.AppendRequest? ==> m.prevIndex >= 0
  {
    hide AnswerVote, AnswerAppend, CountAppend, CommitTarget;
    HandlersKeep(n, st);
    if st.Deliver? || st.Ack? {
      AppendStaysInBounds(n, st);
    }
  }

  lemma {:induction false} InBoundsRun(run: seq<World>, steps: seq<Step>, k: int)
    requires IsRun(run, steps) && Init(run[0]) && 0 <= k < |run|
    ensures InBounds(run[k])
  {
    if k > 0 {
      InBoundsRun(run, steps, k - 1);
      NodeStaysInBounds(run[k - 1].nodes[Actor(steps[k - 1])], steps[k - 1]);
    }
  }

  /** In every run logs are never empty, a leader's nextIndex is at least 1 for every peer, and no request reaches
      below the sentinel: the states in which a handler would index outside a log are never reached. */
  lemma NoPanic(run: seq<World>, steps: seq<Step>, k: int)
    requires IsRun(run, steps) && Init(run[0]) && 0 <= k < |run|
    ensures forall i <- run[k].nodes :: run[k].nodes[i].log != []
    ensures forall i, p | i in run[k].nodes && run[k].nodes[i].Leads() && p in run[k].nodes[i].peers ::
      Lookup(run[k].nodes[i].nextIndex, p) >= 1
    ensures forall i, p | i in run[k].nodes && p in run[k].nodes[i].nextIndex :: run[k].nodes[i].nextIndex[p] >= 1
    ensures forall m <- run[k].net | m.AppendRequest? :: m.prevIndex >= 0
  {
    InBoundsRun(run, steps, k);
    assert forall i <- run[k].nodes :: NodeInBounds(run[k].nodes[i]);
  }
}
