/** Elections can be won: by any node whose log is at least as complete as those of half of the nodes. */
module Electability {
  import opened Basics
  import opened RaftLogs
  import opened RaftNodes
  import opened RaftSystem
  import opened ElectionSafety
  import opened OneLeader
  import opened Scenarios

  lemma ExtendOn(run: seq<World>, steps: seq<Step>, st: Step) returns (run': seq<World>, steps': seq<Step>)
    requires Lawful(run, steps) && Local(st) && Enabled(Last(run), st) && LawfulStep(Last(run), st)
    ensures Lawful(run', steps') && (AllLocal(steps) ==> AllLocal(steps')) && run'[0] == run[0]
    ensures Last(run').nodes == Last(run).nodes[Actor(st) := NodeAfter(Last(run).nodes[Actor(st)], st)]
    ensures Last(run').net == Last(run).net + Sent(Last(run).nodes[Actor(st)], st)
    ensures forall l :: OnlyLeader(run, l) && OnlyLeads(Last(run'), l) ==> OnlyLeader(run', l)
  {
    hide Lawful, Enabled, LawfulStep, NodeAfter, Sent, OnlyLeads;
    run', steps' := ExtendLawful(run, steps, st);
  }

  // The voter is in an earlier term than the candidate n, and has no log that would be more complete.
  predicate Willing(n: NodeState, v: NodeState) {
    && v.currentTerm() < n.currentTerm() && n.log != [] && v.log != []
    && (LastTermOf(v.log) < LastTermOf(n.log) || (LastTermOf(v.log) == LastTermOf(n.log) && |v.log| <= |n.log|))
  }

  // Candidate c needs the votes of just these willing nodes.
  ghost predicate Campaign(w: World, c: int, voters: set<int>) {
    && c in w.nodes && c !in voters && Candidacy(w.nodes[c], c, voters)
    && forall v <- voters :: v in w.nodes && w.nodes[v].id == v && Willing(w.nodes[c], w.nodes[v])
  }

  predicate Candidacy(n: NodeState, c: int, voters: set<int>) {
    var e := n.ballot.election;
    && n.id == c && n.currentTerm() == e.term && voters <= e.pending
    && (voters != {} ==>
          !e.won && e.votes + |voters| >= Majority(n) && (|voters| == 1 || e.votes + |voters| == Majority(n)))
  }

  // The candidate once these have voted for it and it is done with its election.
  function Winner(n: NodeState, voters: set<int>): NodeState {
    var e := n.ballot.election;
    if voters == {} then n.(ballot := n.ballot.(election := e.(pending := {})))
    else BecomeLeader(n.(ballot := n.ballot.(election := Election(e.term, {}, e.votes + |voters|, true))))
  }

  // One more voter is asked, votes for the candidate and is counted.
  lemma OneVote(run: seq<World>, steps: seq<Step>, c: int, v: int) returns (run': seq<World>, steps': seq<Step>)
    requires Lawful(run, steps) && c in Last(run).nodes && v in Last(run).nodes && c != v
    requires var (n, m) := (Last(run).nodes[c], Last(run).nodes[v]);
             && n.id == c && m.id == v && Willing(n, m) && n.currentTerm() == n.ballot.election.term
             && v in n.ballot.election.pending
    ensures Lawful(run', steps') && (AllLocal(steps) ==> AllLocal(steps')) && run'[0] == run[0]
    ensures var (w, t) := (Last(run), Last(run).nodes[c].currentTerm());
            Last(run').nodes == w.nodes[c := CountVote(w.nodes[c], v, t, true)][v := Voted(w.nodes[v], c, t)]
    ensures OnlyLeader(run, c) && OnlyLeads(Last(run), c) ==> OnlyLeader(run', c) && OnlyLeads(Last(run'), c)
  {
    hide Lawful, AllLocal, Last, CountVote, OnlyLeader;
    var w := Last(run);
    var n, t := w.nodes[c], w.nodes[c].currentTerm();
    var m := VoteRequest(c, v, t, |n.log| - 1, LastTermOf(n.log));
    run', steps' := ExtendOn(run, steps, Ask(c, v));
    assert Last(run').nodes == w.nodes && m in Last(run').net;
    run', steps' := ExtendOn(run', steps', Answer(m));
    assert Last(run').nodes == w.nodes[v := Voted(w.nodes[v], c, t)];
    run', steps' := ExtendOn(run', steps', Count(VoteReply(c, v, t, t, true)));
    assert Last(run').nodes[c] == CountVote(w.nodes[c], v, t, true);
  }

  lemma CountedOne(n: NodeState, c: int, voters: set<int>, v: int)
    requires Candidacy(n, c, voters) && v in voters
    ensures var n' := CountVote(n, v, n.currentTerm(), true);
            && Candidacy(n', c, voters - {v}) && Winner(n', voters - {v}) == Winner(n, voters)
            && n'.log == n.log && n'.currentTerm() == n.currentTerm()
  {
    assert |voters - {v}| == |voters| - 1;
    if voters - {v} != {} {
      var u := SomeMember(voters - {v});
      assert |voters - {v}| > 0;
    } else {
      assert voters == {v};
    }
  }

  // The requests of an election that is over are given up, one after the other.
  lemma {:induction false} DropAll(run: seq<World>, steps: seq<Step>, c: int) returns (run': seq<World>, steps': seq<Step>)
    requires Lawful(run, steps) && c in Last(run).nodes
    ensures Lawful(run', steps') && (AllLocal(steps) ==> AllLocal(steps')) && run'[0] == run[0]
    ensures Last(run').nodes == Last(run).nodes[c := Winner(Last(run).nodes[c], {})]
    ensures OnlyLeader(run, c) && OnlyLeads(Last(run), c) ==> OnlyLeader(run', c) && OnlyLeads(Last(run'), c)
    decreases |Last(run).nodes[c].ballot.election.pending|
  {
    hide Lawful, AllLocal, Last, OnlyLeader;
    run', steps' := run, steps;
    var n := Last(run).nodes[c];
    if n.ballot.election.pending == {} {
      assert Last(run).nodes == Last(run).nodes[c := n];
    } else {
      var p := SomeMember(n.ballot.election.pending);
      run', steps' := ExtendOn(run, steps, Drop(c, p));
      assert |n.ballot.election.pending - {p}| < |n.ballot.election.pending|;
      run', steps' := DropAll(run', steps', c);
    }
  }

  /** A candidate that needs just the votes of some willing nodes gets them, and is elected. */
  lemma {:induction false} Collect(run: seq<World>, steps: seq<Step>, c: int, voters: set<int>)
    returns (run': seq<World>, steps': seq<Step>)
    requires Lawful(run, steps) && Campaign(Last(run), c, voters)
    ensures Lawful(run', steps') && (AllLocal(steps) ==> AllLocal(steps')) && run'[0] == run[0]
    ensures var (w, w') := (Last(run), Last(run'));
            && w'.nodes.Keys == w.nodes.Keys && w'.nodes[c] == Winner(w.nodes[c], voters)
            && (forall i <- w.nodes :: i != c && i !in voters ==> w'.nodes[i] == w.nodes[i])
            && (forall v <- voters :: w'.nodes[v] == Voted(w.nodes[v], c, w.nodes[c].currentTerm()))
    ensures OnlyLeader(run, c) && OnlyLeads(Last(run), c) ==> OnlyLeader(run', c) && OnlyLeads(Last(run'), c)
    decreases |voters|
  {
    hide Lawful, AllLocal, Last, CountVote, Voted, OnlyLeader, OnlyLeads, Winner, Willing, Candidacy;
    run', steps' := run, steps;
    if voters == {} {
      run', steps' := DropAll(run, steps, c);
    } else {
      var w := Last(run);
      var v := SomeMember(voters);
      CountedOne(w.nodes[c], c, voters, v);
      CandidacyIs(w.nodes[c], c, voters);
      run', steps' := OneVote(run, steps, c, v);
      forall u <- voters - {v} ensures Willing(Last(run').nodes[c], w.nodes[u]) {
        StillWilling(w.nodes[c], Last(run').nodes[c], w.nodes[u]);
      }
      assert |voters - {v}| < |voters|;
      run', steps' := Collect(run', steps', c, voters - {v});
    }
  }

  lemma CandidacyIs(n: NodeState, c: int, voters: set<int>)
    requires Candidacy(n, c, voters)
    ensures n.id == c && n.currentTerm() == n.ballot.election.term && voters <= n.ballot.election.pending
  {
  }

  lemma StillWilling(n: NodeState, n': NodeState, v: NodeState)
    requires Willing(n, v) && n'.log == n.log && n'.currentTerm() == n.currentTerm()
    ensures Willing(n', v)
  {
  }

  // Of these voters, as many as it takes to win.
  lemma Enough(n: NodeState, c: int, able: set<int>) returns (voters: set<int>)
    requires n.id == c && able <= n.peers && able != {} && 2 * (1 + |able|) >= 1 + |n.peers|
    ensures voters <= able && voters != {} && Candidacy(BeginElection(n), c, voters)
  {
    var k := if |n.peers| < 2 then 1 else |n.peers| / 2;
    var x := SomeMember(able);
    SubsetSize({x}, able);
    voters := SubsetOfSize(able, k);
  }

  // v would vote for c, if c stood: its term is not ahead of c's, and its log is no more complete.
  predicate WouldElect(c: NodeState, v: NodeState) {
    && v.currentTerm() <= c.currentTerm() && c.log != [] && v.log != []
    && (LastTermOf(v.log) < LastTermOf(c.log) || (LastTermOf(v.log) == LastTermOf(c.log) && |v.log| <= |c.log|))
  }

  lemma WouldBeWilling(c: NodeState, v: NodeState)
    requires WouldElect(c, v)
    ensures Willing(BeginElection(c), v)
  {
  }

  lemma CampaignBegins(w: World, w1: World, c: int, voters: set<int>)
    requires WellFormed(w) && c in w.nodes && w1.nodes == w.nodes[c := BeginElection(w.nodes[c])]
    requires voters <= w.nodes.Keys - {c} && Candidacy(BeginElection(w.nodes[c]), c, voters)
    requires forall v <- voters :: WouldElect(w.nodes[c], w.nodes[v])
    ensures Campaign(w1, c, voters)
  {
    hide Candidacy, WouldElect, Willing, BeginElection;
    forall v <- voters ensures Willing(w1.nodes[c], w1.nodes[v]) {
      WouldBeWilling(w.nodes[c], w.nodes[v]);
    }
  }

  /**
   Wherever a run has got to, a node between elections can be elected by any nodes that with it make half of all, if
   none of them is in a later term or has the more complete log: it leads the next term, with its log as it was.
   */
  lemma Electable(run: seq<World>, steps: seq<Step>, c: int, able: set<int>) returns (run': seq<World>, steps': seq<Step>)
    requires Lawful(run, steps) && WellFormed(Last(run)) && c in Last(run).nodes && Idle(Last(run).nodes[c])
    requires able != {} && able <= Last(run).nodes.Keys - {c} && 2 * (1 + |able|) >= |Last(run).nodes|
    requires forall v <- able :: WouldElect(Last(run).nodes[c], Last(run).nodes[v])
    ensures Lawful(run', steps') && run'[0] == run[0] && Last(run').nodes.Keys == Last(run).nodes.Keys
    ensures LeadsIn(Last(run'), c, Last(run).nodes[c].currentTerm() + 1)
    ensures forall i <- Last(run).nodes :: Last(run').nodes[i].log == Last(run).nodes[i].log
    ensures forall i <- Last(run).nodes :: i != c && i !in able ==> Last(run').nodes[i] == Last(run).nodes[i]
  {
    hide Lawful, AllLocal, Last, WouldElect, OnlyLeader, OnlyLeads, Willing, Candidacy, Winner, Voted, BeginElection;
    var w := Last(run);
    var n := w.nodes[c];
    PeersAreRest(w, c);
    var voters := Enough(n, c, able);
    run', steps' := ExtendOn(run, steps, Timeout(c));
    var w1 := Last(run');
    assert w1.nodes == w.nodes[c := BeginElection(n)];
    CampaignBegins(w, w1, c, voters);
    run', steps' := Collect(run', steps', c, voters);
    WinnerIs(n, voters);
    forall i <- voters ensures Last(run').nodes[i].log == w.nodes[i].log {
      VotedIs(w.nodes[i], c, w1.nodes[c].currentTerm());
    }
  }

  lemma PeersAreRest(w: World, c: int)
    requires WellFormed(w) && c in w.nodes
    ensures w.nodes[c].id == c && w.nodes[c].peers == w.nodes.Keys - {c} && |w.nodes| == 1 + |w.nodes[c].peers|
  {
    assert w.nodes.Keys == w.nodes[c].peers + {c};
    assert |w.nodes.Keys| == |w.nodes|;
  }

  lemma WinnerIs(n: NodeState, voters: set<int>)
    requires voters != {}
    ensures var n' := Winner(BeginElection(n), voters);
            && n'.Leads() && n'.currentTerm() == n.currentTerm() + 1 && n'.log == n.log && n'.id == n.id && n'.peers == n.peers
  {
  }

  // Of these nodes' logs, none is more complete than c's.
  ghost predicate MostComplete(w: World, c: int, ids: set<int>) {
    c in w.nodes && forall v <- ids :: v in w.nodes && NoMoreComplete(w.nodes[v].log, w.nodes[c].log)
  }

  predicate NoMoreComplete(a: Log, b: Log) {
    && a != [] && b != []
    && (LastTermOf(a) < LastTermOf(b) || (LastTermOf(a) == LastTermOf(b) && |a| <= |b|))
  }

  lemma {:induction false} SomeMostComplete(w: World, ids: set<int>) returns (c: int)
    requires ids != {} && ids <= w.nodes.Keys && forall i <- ids :: w.nodes[i].log != []
    ensures c in ids && MostComplete(w, c, ids)
  {
    var x := SomeMember(ids);
    if ids == {x} {
      c := x;
    } else {
      assert ids - {x} != {};
      c := SomeMostComplete(w, ids - {x});
      if NoMoreComplete(w.nodes[c].log, w.nodes[x].log) {
        c := x;
      }
    }
  }

  lemma {:induction false} TermBound(w: World, ids: set<int>) returns (t: int)
    requires ids <= w.nodes.Keys
    ensures forall i <- ids :: w.nodes[i].currentTerm() <= t
  {
    if ids == {} {
      t := 0;
    } else {
      var x := SomeMember(ids);
      t := TermBound(w, ids - {x});
      if t < w.nodes[x].currentTerm() {
        t := w.nodes[x].currentTerm();
      }
    }
  }

  // A node that stands in vain often enough gets to any term.
  lemma {:induction false} RaiseTerm(run: seq<World>, steps: seq<Step>, c: int, t: int) returns (run': seq<World>, steps': seq<Step>)
    requires Lawful(run, steps) && WellFormed(Last(run)) && c in Last(run).nodes && Idle(Last(run).nodes[c])
    ensures Lawful(run', steps') && run'[0] == run[0] && WellFormed(Last(run')) && c in Last(run').nodes
    ensures Last(run').nodes == Last(run).nodes[c := Last(run').nodes[c]]
    ensures var n := Last(run').nodes[c]; Idle(n) && n.currentTerm() >= t && n.log == Last(run).nodes[c].log
    decreases t - Last(run).nodes[c].currentTerm()
  {
    hide Lawful, AllLocal, Last;
    run', steps' := run, steps;
    var w := Last(run);
    if w.nodes[c].currentTerm() < t {
      run', steps' := ExtendOn(run, steps, Timeout(c));
      assert Last(run').nodes == w.nodes[c := BeginElection(w.nodes[c])];
      run', steps' := DropAll(run', steps', c);
      StoodInVain(w, Last(run'), c);
      run', steps' := RaiseTerm(run', steps', c, t);
    } else {
      assert w.nodes == w.nodes[c := w.nodes[c]];
    }
  }

  lemma StoodInVain(w: World, w': World, c: int)
    requires WellFormed(w) && c in w.nodes && w'.nodes == w.nodes[c := Winner(BeginElection(w.nodes[c]), {})]
    ensures WellFormed(w') && Idle(w'.nodes[c]) && w'.nodes[c].currentTerm() == w.nodes[c].currentTerm() + 1
    ensures w'.nodes[c].log == w.nodes[c].log
  {
    assert w'.nodes.Keys == w.nodes.Keys;
  }

  /**
   Elections never get stuck: wherever a run has got to, of any two or more nodes between elections that make half of
   all, one can be elected by the others.
   */
  lemma SomeoneElectable(run: seq<World>, steps: seq<Step>, ids: set<int>) returns (run': seq<World>, steps': seq<Step>, c: int)
    requires Lawful(run, steps) && WellFormed(Last(run)) && ids <= Last(run).nodes.Keys
    requires |ids| >= 2 && 2 * |ids| >= |Last(run).nodes|
    requires forall i <- ids :: Idle(Last(run).nodes[i]) && Last(run).nodes[i].log != []
    ensures Lawful(run', steps') && run'[0] == run[0]
    ensures c in ids && c in Last(run').nodes && Last(run').nodes[c].Leads()
  {
    hide Lawful, Last, Idle, NoMoreComplete, WellFormed;
    var w := Last(run);
    assert ids != {};
    c := SomeMostComplete(w, ids);
    var t := TermBound(w, ids);
    run', steps' := RaiseTerm(run, steps, c, t);
    var able := ids - {c};
    assert |able| == |ids| - 1 && able != {};
    assert |Last(run').nodes| == |Last(run').nodes.Keys| == |w.nodes.Keys|;
    forall v <- able ensures WouldElect(Last(run').nodes[c], Last(run').nodes[v]) {
      CompleteElects(Last(run').nodes[c], w.nodes[v], w.nodes[c].log, t);
    }
    run', steps' := Electable(run', steps', c, able);
  }

  lemma CompleteElects(c: NodeState, v: NodeState, log: Log, t: int)
    requires c.log == log && v.currentTerm() <= t <= c.currentTerm() && NoMoreComplete(v.log, log)
    ensures WouldElect(c, v)
  {
  }
}
