/** For which sizes of the cluster elections are safe. */
module ElectionSize {
  import opened Basics
  import opened RaftLogs
  import opened RaftNodes
  import opened RaftSystem
  import opened ElectionSafety
  import opened OneLeader
  import opened Scenarios
  import opened Electability

  ghost predicate OneLeaderPerTerm(w: World) {
    forall t, a, b :: (t, a) in w.past.led && (t, b) in w.past.led ==> a == b
  }

  // No run of these nodes in which vote replies are handled only where harmless elects two leaders in one term.
  ghost predicate ElectionsSafe(ids: set<int>) {
    forall run: seq<World>, steps: seq<Step> ::
      IsRun(run, steps) && Init(run[0]) && run[0].nodes.Keys == ids && SafeCounts(run, steps) ==> OneLeaderPerTerm(Last(run))
  }

  // A lawful run without append requests and replies.
  ghost predicate Voting(run: seq<World>, steps: seq<Step>) {
    Lawful(run, steps) && AllLocal(steps)
  }

  lemma ExtendVoting(run: seq<World>, steps: seq<Step>, st: Step) returns (run': seq<World>, steps': seq<Step>)
    requires Voting(run, steps) && Local(st) && Enabled(Last(run), st) && LawfulStep(Last(run), st)
    ensures Voting(run', steps') && run'[0] == run[0]
    ensures Last(run').nodes == Last(run).nodes[Actor(st) := NodeAfter(Last(run).nodes[Actor(st)], st)]
    ensures forall l :: OnlyLeader(run, l) && OnlyLeads(Last(run'), l) ==> OnlyLeader(run', l)
  {
    hide Lawful, AllLocal, Enabled, LawfulStep, NodeAfter, OnlyLeads, OnlyLeader;
    run', steps' := ExtendOn(run, steps, st);
  }

  // The node has no entries, applied nothing and has nothing to append.
  predicate NothingDone(n: NodeState) {
    && n.log == [SENTINEL] && n.commitIndex == 0 && n.lastApplied == 0 && n.groups == map[] && n.proposals == []
    && n.matchIndex.Keys <= n.peers
  }

  // The node leads term 1, is done with its election and has done nothing since.
  predicate FreshLeader(n: NodeState) {
    && n.Leads() && n.currentTerm() == 1 && n.ballot.election.pending == {} && NothingDone(n)
    && forall p <- n.peers :: p in n.nextIndex && n.nextIndex[p] == 1 && p in n.matchIndex && n.matchIndex[p] == 0
  }

  // The node has voted in term 1 and done nothing else.
  predicate Follows(n: NodeState, v: int) {
    n.id == v && n.log == [SENTINEL] && n.currentTerm() == 1 && !n.Leads() && n.commitIndex == 0
  }

  // c leads term 1 with just these votes, and nothing has happened since.
  ghost predicate Elects(w: World, c: int, voters: set<int>) {
    && c in w.nodes && FreshLeader(w.nodes[c]) && w.nodes[c].id == c && w.nodes[c].peers == w.nodes.Keys - {c}
    && voters <= w.nodes[c].peers && voters != {} && 1 + |voters| == Quorum(|w.nodes.Keys|)
    && forall v <- voters :: Follows(w.nodes[v], v)
  }

  lemma VoterFollows(w: World, v: int, c: int)
    requires Untouched(w, v)
    ensures Follows(Voted(w.nodes[v], c, 1), v)
  {
  }

  lemma Stands(n: NodeState, c: int, voters: set<int>)
    requires n == InitialNode(c, n.peers) && voters != {} && voters <= n.peers && 1 + |voters| == Majority(n)
    ensures Candidacy(BeginElection(n), c, voters)
  {
  }

  // Two nodes, and the rest in two halves that are one vote short of a quorum each.
  lemma Halves(ids: set<int>) returns (a: int, b: int, va: set<int>, vb: set<int>)
    requires !SafeSize(|ids|)
    ensures a in ids && b in ids && a != b && va <= ids - {a, b} && vb == ids - {a, b} - va
    ensures 1 + |va| == Quorum(|ids|) == 1 + |vb| && va != {} && vb != {}
  {
    a := SomeMember(ids);
    assert |ids - {a}| > 0;
    b := SomeMember(ids - {a});
    assert ids - {a} - {b} == ids - {a, b};
    var rest := ids - {a, b};
    va := SubsetOfSize(rest, |ids| / 2 - 1);
    vb := rest - va;
    assert rest == va + vb;
    assert |rest| == |va| + |vb|;
  }

  lemma StartVoting(ids: set<int>) returns (run: seq<World>, steps: seq<Step>)
    requires NONE !in ids
    ensures Voting(run, steps) && Init(run[0]) && run[0].nodes.Keys == ids == Last(run).nodes.Keys
    ensures (forall i <- ids :: Untouched(Last(run), i)) && forall l :: OnlyLeader(run, l) && OnlyLeads(Last(run), l)
  {
    hide Init, SafeCounts, TimelyTakes, MatchingDelivers, LeadingSends;
    run, steps := Started(ids);
    assert |run| == 1;
    forall i <- ids ensures !run[0].nodes[i].Leads() {
      assert Untouched(run[0], i);
    }
  }

  lemma QuorumOfOthers(ids: set<int>, c: int)
    requires c in ids
    ensures Quorum(|ids|) == |ids - {c}| / 2 + 1
  {
    assert |ids - {c}| == |ids| - 1;
  }

  lemma BothBegin(run: seq<World>, steps: seq<Step>, a: int, b: int) returns (run': seq<World>, steps': seq<Step>)
    requires Voting(run, steps) && a != b && Untouched(Last(run), a) && Untouched(Last(run), b)
    ensures Voting(run', steps') && run'[0] == run[0]
    ensures var w := Last(run);
            Last(run').nodes == w.nodes[a := BeginElection(w.nodes[a])][b := BeginElection(w.nodes[b])]
  {
    hide Voting, Last, BeginElection;
    run', steps' := ExtendVoting(run, steps, Timeout(a));
    run', steps' := ExtendVoting(run', steps', Timeout(b));
  }

  lemma BeginsCampaign(w: World, w': World, c: int, d: int, voters: set<int>)
    requires Untouched(w, c) && (forall v <- voters :: Untouched(w, v)) && c !in voters && d !in voters && d in w.nodes
    requires c in w'.nodes && w'.nodes[c] == BeginElection(w.nodes[c]) && w'.nodes.Keys == w.nodes.Keys
    requires forall i <- w.nodes :: i != c && i != d ==> w'.nodes[i] == w.nodes[i]
    requires voters != {} && voters <= w.nodes.Keys - {c} && 1 + |voters| == |w.nodes.Keys - {c}| / 2 + 1
    ensures Campaign(w', c, voters) && Begun(w', c) && forall v <- voters :: Untouched(w', v)
  {
    Stands(w.nodes[c], c, voters);
    forall v <- voters ensures Willing(w'.nodes[c], w'.nodes[v]) {
      assert Untouched(w, v);
    }
  }

  // The node has stood for term 1, and done nothing else.
  predicate Begun(w: World, c: int) {
    c in w.nodes && w.nodes[c] == BeginElection(InitialNode(c, w.nodes.Keys - {c}))
  }

  // Both candidates have begun their elections and have their halves before them.
  lemma BothStand(ids: set<int>) returns (run: seq<World>, steps: seq<Step>, a: int, b: int, va: set<int>, vb: set<int>)
    requires NONE !in ids && !SafeSize(|ids|)
    ensures Voting(run, steps) && Init(run[0]) && run[0].nodes.Keys == ids == Last(run).nodes.Keys && a != b
    ensures Begun(Last(run), a) && Begun(Last(run), b)
    ensures (forall v <- va :: Untouched(Last(run), v)) && forall v <- vb :: Untouched(Last(run), v)
    ensures Campaign(Last(run), a, va) && Campaign(Last(run), b, vb) && va !! vb && b !in va && a !in vb
    ensures a in ids && b in ids && va != {} && vb != {} && va <= ids - {a} && vb <= ids - {b}
    ensures Last(run).nodes[a].peers == ids - {a} && Last(run).nodes[b].peers == ids - {b}
    ensures 1 + |va| == Quorum(|ids|) == 1 + |vb|
  {
    hide Init, Voting, Last, Candidacy, BeginElection, Untouched, Campaign, Begun, Quorum;
    run, steps := StartVoting(ids);
    a, b, va, vb := Halves(ids);
    var w := Last(run);
    QuorumOfOthers(ids, a);
    QuorumOfOthers(ids, b);
    Begins(w, a);
    Begins(w, b);
    run, steps := BothBegin(run, steps, a, b);
    BeginsCampaign(w, Last(run), a, b, va);
    BeginsCampaign(w, Last(run), b, a, vb);
  }

  lemma Begins(w: World, i: int)
    requires Untouched(w, i)
    ensures BeginElection(w.nodes[i]).peers == w.nodes.Keys - {i}
  {
  }

  // A candidate of term 1 is elected by nodes that have done nothing yet.
  lemma CollectFresh(run: seq<World>, steps: seq<Step>, c: int, voters: set<int>)
    returns (run': seq<World>, steps': seq<Step>)
    requires Voting(run, steps) && Campaign(Last(run), c, voters) && Begun(Last(run), c) && voters != {}
    requires forall v <- voters :: Untouched(Last(run), v)
    ensures Voting(run', steps') && run'[0] == run[0]
    ensures var (w, w') := (Last(run), Last(run'));
            && w'.nodes.Keys == w.nodes.Keys && LeadsIn(w', c, 1) && FreshLeader(w'.nodes[c])
            && w'.nodes[c].id == c && w'.nodes[c].peers == w.nodes.Keys - {c}
            && (forall i <- w.nodes :: i != c && i !in voters ==> w'.nodes[i] == w.nodes[i])
            && (forall v <- voters :: Follows(w'.nodes[v], v))
    ensures OnlyLeader(run, c) && OnlyLeads(Last(run), c) ==> OnlyLeader(run', c) && OnlyLeads(Last(run'), c)
  {
    hide Lawful, AllLocal, Last, FreshLeader, Follows, Untouched, OnlyLeader, OnlyLeads, Winner, Voted, Candidacy, Willing;
    var w := Last(run);
    BegunWins(w, c, voters);
    forall v <- voters ensures Follows(Voted(w.nodes[v], c, 1), v) {
      VoterFollows(w, v, c);
    }
    run', steps' := Collect(run, steps, c, voters);
  }

  lemma BegunWins(w: World, c: int, voters: set<int>)
    requires Begun(w, c) && voters != {}
    ensures var n := Winner(w.nodes[c], voters);
            && FreshLeader(n) && n.Leads() && n.currentTerm() == 1 && n.id == c && n.peers == w.nodes.Keys - {c}
    ensures w.nodes[c].currentTerm() == 1
  {
  }

  lemma CampaignStays(w: World, w': World, c: int, voters: set<int>)
    requires Campaign(w, c, voters) && Begun(w, c) && forall v <- voters :: Untouched(w, v)
    requires w'.nodes.Keys == w.nodes.Keys && w'.nodes[c] == w.nodes[c]
    requires forall v <- voters :: v in w.nodes ==> w'.nodes[v] == w.nodes[v]
    ensures Campaign(w', c, voters) && Begun(w', c) && forall v <- voters :: Untouched(w', v)
  {
  }

  /** An even cluster of four nodes or more: two candidates of term 1 each win with half of the votes. */
  lemma TwoLeaders(ids: set<int>)
    returns (run: seq<World>, steps: seq<Step>, a: int, b: int, va: set<int>, vb: set<int>)
    requires NONE !in ids && !SafeSize(|ids|)
    ensures Voting(run, steps) && Init(run[0]) && run[0].nodes.Keys == ids && a != b
    ensures LeadsIn(Last(run), a, 1) && LeadsIn(Last(run), b, 1)
    ensures Elects(Last(run), a, va) && Elects(Last(run), b, vb) && va !! vb && b !in va && a !in vb
  {
    hide Init, Voting, Last, Campaign, FreshLeader, Begun, Follows, Untouched;
    run, steps, a, b, va, vb := BothStand(ids);
    var w := Last(run);
    run, steps := CollectFresh(run, steps, a, va);
    CampaignStays(w, Last(run), b, vb);
    run, steps := CollectFresh(run, steps, b, vb);
  }

  /**
   Exactly for which clusters elections are safe when vote replies are handled only where harmless: those of an odd number of
   nodes, and those of at most two.
   */
  lemma ElectionsSafeIff(ids: set<int>)
    requires NONE !in ids
    ensures ElectionsSafe(ids) <==> SafeSize(|ids|)
  {
    if SafeSize(|ids|) {
      forall run: seq<World>, steps: seq<Step>
        | IsRun(run, steps) && Init(run[0]) && run[0].nodes.Keys == ids && SafeCounts(run, steps)
        ensures OneLeaderPerTerm(Last(run))
      {
        SafeRun(run, steps, ids);
      }
    } else {
      var run, steps, a, b, va, vb := TwoLeaders(ids);
      BothLed(run, steps, a, b);
    }
  }

  lemma SafeRun(run: seq<World>, steps: seq<Step>, ids: set<int>)
    requires IsRun(run, steps) && Init(run[0]) && run[0].nodes.Keys == ids && SafeCounts(run, steps)
    requires SafeSize(|ids|)
    ensures OneLeaderPerTerm(Last(run))
  {
    hide Init, SafeCounts;
    assert |run[0].nodes| == |run[0].nodes.Keys|;
    forall t, a, b | (t, a) in Last(run).past.led && (t, b) in Last(run).past.led ensures a == b {
      AtMostOneLeaderPerTerm(run, steps, |run| - 1, a, b, t);
    }
  }

  lemma BothLed(run: seq<World>, steps: seq<Step>, a: int, b: int)
    requires Lawful(run, steps) && Init(run[0]) && a != b && LeadsIn(Last(run), a, 1) && LeadsIn(Last(run), b, 1)
    ensures !OneLeaderPerTerm(Last(run))
  {
    var w := Last(run);
    InvRun(run, steps, |run| - 1);
    assert PollOf(w).ballots[a].role == Leader && PollOf(w).ballots[b].role == Leader;
    assert (1, a) in w.past.led && (1, b) in w.past.led;
  }
}
