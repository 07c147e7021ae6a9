/** What is proposed to a node: a queue between Propose and the election loop. */
module Proposals {
  import opened RaftLogs
  import opened RaftNodes
  import opened RaftSystem

  // What node i has been proposed so far, oldest first, each stamped with the node's term at the time.
  function Submitted(run: seq<World>, steps: seq<Step>, i: int): (all: Log)
    requires |run| == |steps| + 1
  {
    if steps == [] then []
    else
      var n := |steps| - 1;
      Submitted(run[..n + 1], steps[..n], i) +
      if steps[n].Submit? && steps[n].node == i && i in run[n].nodes then
        [LogEntry(run[n].nodes[i].currentTerm(), 0, steps[n].c)]
      else []
  }

  // How many proposals it has taken from the queue.
  function Takes(steps: seq<Step>, i: int): nat {
    if steps == [] then 0
    else Takes(steps[..|steps| - 1], i) + if steps[|steps| - 1] == Take(i) then 1 else 0
  }

  // Only proposing and taking change the queue.
  lemma QueueStep(n: NodeState, st: Step)
    requires Can(n, st)
    ensures var n' := NodeAfter(n, st);
            n'.proposals == match st
                            case Submit(_, c) => n.proposals + [LogEntry(n.currentTerm(), 0, c)]
                            case Take(_) => n.proposals[1..]
                            case _ => n.proposals
  {
    hide AnswerVote, AnswerAppend, CountAppend, CountVote;
    HandlersKeep(n, st);
  }

  // The queue is what was submitted, less what was taken.
  ghost predicate Queued(run: seq<World>, steps: seq<Step>, i: int)
    requires |run| == |steps| + 1
  {
    var all, taken := Submitted(run, steps, i), Takes(steps, i);
    && i in run[|steps|].nodes && taken <= |all| <= taken + PROPOSE_CAPACITY
    && run[|steps|].nodes[i].proposals == all[taken..]
  }

  lemma QueuedStep(run: seq<World>, steps: seq<Step>, i: int)
    requires IsRun(run, steps) && steps != [] && Queued(run[..|steps|], steps[..|steps| - 1], i)
    ensures Queued(run, steps, i)
  {
    hide NodeAfter, Can, PastAfter, Sent;
    var k := |steps| - 1;
    var w, st := run[k], steps[k];
    assert run[..|steps|][k] == w && Enabled(w, st) && run[k + 1] == Next(w, st);
    if Actor(st) == i {
      QueueStep(w.nodes[i], st);
      CapacityKept(w.nodes[i], st);
    }
  }

  lemma CapacityKept(n: NodeState, st: Step)
    requires Can(n, st)
    ensures st.Submit? ==> |n.proposals| < PROPOSE_CAPACITY
    ensures st.Take? ==> n.proposals != []
  {
  }

  /** First in, first out: in every run a node's queue is what it was proposed, in order, less what was taken. */
  lemma {:induction false} QueueIsRest(run: seq<World>, steps: seq<Step>, i: int)
    requires IsRun(run, steps) && Init(run[0]) && i in run[0].nodes
    ensures Queued(run, steps, i)
  {
    hide Queued;
    if steps == [] {
      FreshQueue(run, i);
    } else {
      QueueIsRest(run[..|steps|], steps[..|steps| - 1], i);
      QueuedStep(run, steps, i);
    }
  }

  lemma FreshQueue(run: seq<World>, i: int)
    requires |run| == 1 && Init(run[0]) && i in run[0].nodes
    ensures Queued(run, [], i)
  {
  }

  /** So the next proposal taken is the oldest one not taken yet; a leader appends it, any other node forgets it. */
  lemma TakenInOrder(run: seq<World>, steps: seq<Step>, i: int, k: nat)
    requires IsRun(run, steps) && Init(run[0]) && i in run[0].nodes && k < |steps| && steps[k] == Take(i)
    ensures i in run[k].nodes && i in run[k + 1].nodes && Takes(steps[..k], i) < |Submitted(run[..k + 1], steps[..k], i)|
    ensures var (n, e) := (run[k].nodes[i], Submitted(run[..k + 1], steps[..k], i)[Takes(steps[..k], i)]);
            run[k + 1].nodes[i].log == if n.Leads() then n.log + [LogEntry(e.term, |n.log|, e.command)] else n.log
  {
    hide Submitted, Takes;
    QueueIsRest(run[..k + 1], steps[..k], i);
    assert run[..k + 1][k] == run[k] && Enabled(run[k], steps[k]) && run[k + 1] == Next(run[k], steps[k]);
  }
}
