/**
 Where the code falls short of the Raft paper: for each hypothesis of the safety results, a
 run from a fresh cluster that breaks without it, and exactly when a step is fine.  The runs
 for the size of the cluster (H5) are in modules ElectionSize and EvenClusters.
 */
module WithoutHypotheses {
  import opened Basics
  import opened GroupFsm
  import opened RaftLogs
  import opened RaftNodes
  import opened RaftSystem
  import opened ElectionSafety
  import opened LogMatching
  import opened OneLeader
  import opened Replication
  import opened Scenarios

  lemma FreshTrio() returns (run: seq<World>, steps: seq<Step>)
    ensures AllLocal(steps)
    ensures Lawful(run, steps) && Init(run[0]) && run[0].nodes.Keys == {1, 2, 3}
    ensures var w := Last(run);
            && Trio(w, 1, 2, 3) && w.net == {} && w.nodes[1] == InitialNode(1, {2, 3})
            && w.nodes[2] == InitialNode(2, {1, 3}) && w.nodes[3] == InitialNode(3, {1, 2})
  {
    run, steps := Started({1, 2, 3});
    assert {1, 2, 3} - {1} == {2, 3} && {1, 2, 3} - {2} == {1, 3} && {1, 2, 3} - {3} == {1, 2};
    assert Untouched(run[0], 1) && Untouched(run[0], 2) && Untouched(run[0], 3);
    assert |run[0].nodes.Keys| == |run[0].nodes|;
  }

  // -----  H1  -----

  const ONE := InitialNode(1, {2, 3})
  const TWO := InitialNode(2, {1, 3})
  const THREE := InitialNode(3, {1, 2})

  // Node 1 has a vote of term 1 on its way when node 3 has become leader of term 2.
  lemma LateVotePending() returns (run: seq<World>, steps: seq<Step>)
    ensures Lawful(run, steps) && Init(run[0]) && run[0].nodes.Keys == {1, 2, 3}
    ensures var w := Last(run);
            && Trio(w, 1, 2, 3) && VoteReply(1, 2, 1, 1, true) in w.net
            && w.nodes[1] == Voted(BeginElection(ONE), 3, 2) && w.nodes[3] == Elected(Standing(THREE))
  {
    hide Lawful, Init, Last, Elected, Voted;
    run, steps := FreshTrio();
    run, steps := VoteOf(run, steps, 1, 2, 3);
    run, steps := Fail(run, steps, 3, 1, 2);
    run, steps := Elect(run, steps, 3, 1, 2);
  }

  /**
   Without H1 two nodes of a three-node cluster lead one term at the same time: node 1 acts on
   a vote of term 1 after it has moved to term 2, which node 3 leads.
   */
  lemma LateVoteTwoLeaders() returns (run: seq<World>, steps: seq<Step>)
    ensures IsRun(run, steps) && Init(run[0]) && run[0].nodes.Keys == {1, 2, 3}
    ensures TimelyTakes(run, steps) && MatchingDelivers(run, steps) && LeadingSends(run, steps)
    ensures LeadsIn(Last(run), 1, 2) && LeadsIn(Last(run), 3, 2)
  {
    hide IsRun, Init, SafeCounts, TimelyTakes, MatchingDelivers, LeadingSends, Last, Elected, Voted, CountVote;
    run, steps := LateVotePending();
    LateVoteCounts();
    NextOf(Last(run), Count(VoteReply(1, 2, 1, 1, true)));
    run, steps := Extend(run, steps, Count(VoteReply(1, 2, 1, 1, true)));
  }

  lemma LateVoteCounts()
    ensures var n := Voted(BeginElection(ONE), 3, 2);
            && 2 in n.ballot.election.pending && n.ballot.election.term == 1
            && CountVote(n, 2, 1, true).Leads() && CountVote(n, 2, 1, true).currentTerm() == 2
    ensures Elected(Standing(THREE)).Leads() && Elected(Standing(THREE)).currentTerm() == 2
  {
    assert |{2, 3}| == 2;
  }

  // H2, H3 and H6, and H1 for the granted votes.
  ghost predicate LawfulGrants(run: seq<World>, steps: seq<Step>) {
    && IsRun(run, steps) && TimelyTakes(run, steps) && MatchingDelivers(run, steps) && LeadingSends(run, steps)
    && forall k :: 0 <= k < |steps| && Granted(steps[k]) ==> SafeCount(run[k], steps[k])
  }

  predicate Granted(st: Step) {
    st.Count? && st.m.VoteReply? && st.m.granted
  }

  lemma ExtendGrants(run: seq<World>, steps: seq<Step>, st: Step) returns (run': seq<World>, steps': seq<Step>)
    requires LawfulGrants(run, steps) && Enabled(Last(run), st) && !st.Take? && !st.Deliver? && !st.Send?
    requires Granted(st) ==> SafeCount(Last(run), st)
    ensures LawfulGrants(run', steps') && run'[0] == run[0] && run' == run + [Last(run')]
    ensures Last(run').nodes == Last(run).nodes[Actor(st) := NodeAfter(Last(run).nodes[Actor(st)], st)]
    ensures Last(run').net == Last(run).net + Sent(Last(run).nodes[Actor(st)], st)
  {
    hide Enabled, Next, SafeCount, TimelyTakes, MatchingDelivers, LeadingSends;
    run', steps' := Extend(run, steps, st);
    NextOf(Last(run), st);
  }

  // Node 1 asked node 2 for its vote in term 1, and has since voted for node 3, which leads term 2; node 2 has stood in vain.
  lemma OvertakenCandidate() returns (run: seq<World>, steps: seq<Step>)
    ensures Lawful(run, steps) && Init(run[0]) && run[0].nodes.Keys == {1, 2, 3}
    ensures var w := Last(run);
            && Trio(w, 1, 2, 3) && w.nodes[1] == Voted(BeginElection(ONE), 3, 2)
            && w.nodes[2] == Standing(TWO) && w.nodes[3] == Elected(Standing(THREE))
            && {VoteRequest(1, 2, 1, 0, 0), VoteReply(3, 1, 2, 2, true)} <= w.net
  {
    hide Lawful, Init, Last, Elected, Voted, Standing, BeginElection;
    run, steps := FirstAsks();
    run, steps := Fail(run, steps, 3, 1, 2);
    StandingIs(THREE);
    run, steps := Elect(run, steps, 3, 1, 2);
    run, steps := Fail(run, steps, 2, 1, 3);
  }

  // Node 1 stands in term 1 and has asked node 2.
  lemma FirstAsks() returns (run: seq<World>, steps: seq<Step>)
    ensures Lawful(run, steps) && Init(run[0]) && run[0].nodes.Keys == {1, 2, 3}
    ensures var w := Last(run);
            && Trio(w, 1, 2, 3) && w.nodes[1] == BeginElection(ONE) && w.nodes[2] == TWO && w.nodes[3] == THREE
            && VoteRequest(1, 2, 1, 0, 0) in w.net
            && w.nodes[1].currentTerm() == 1 && w.nodes[1].log == [SENTINEL]
  {
    hide Lawful, Init, Last, BeginElection;
    run, steps := FreshTrio();
    var w := Last(run);
    BegunIs(ONE);
    run, steps := ExtendLawful(run, steps, Timeout(1));
    assert Last(run).nodes[1] == BeginElection(ONE);
    run, steps := ExtendLawful(run, steps, Ask(1, 2));
    TrioStays(w, Last(run), 1, 2, 3);
  }

  // ... and node 2 stands again, in term 2: it has asked node 1 for its vote, and refused its own.
  lemma RefusalPending() returns (run: seq<World>, steps: seq<Step>)
    ensures Lawful(run, steps) && Init(run[0]) && run[0].nodes.Keys == {1, 2, 3}
    ensures var w := Last(run);
            && 1 in w.nodes && 2 in w.nodes && 3 in w.nodes && w.nodes[1] == Voted(BeginElection(ONE), 3, 2)
            && w.nodes[2] == BeginElection(Standing(TWO)) && w.nodes[3] == Elected(Standing(THREE))
            && {VoteReply(1, 2, 1, 2, false), VoteReply(3, 1, 2, 2, true), VoteRequest(2, 1, 2, 0, 0)} <= w.net
  {
    hide Lawful, Init, Last, Elected, Voted, Standing, BeginElection;
    run, steps := OvertakenCandidate();
    StandingIs(TWO);
    BegunIs(Standing(TWO));
    run, steps := ExtendLawful(run, steps, Timeout(2));
    assert Last(run).nodes[2] == BeginElection(Standing(TWO));
    run, steps := ExtendLawful(run, steps, Ask(2, 1));
    run, steps := ExtendLawful(run, steps, Answer(VoteRequest(1, 2, 1, 0, 0)));
  }

  // Node 1, after the refusal of its vote in term 1 has reached it in term 2.
  function Wiped(): NodeState {
    CountVote(Voted(BeginElection(ONE), 3, 2), 2, 2, false)
  }

  lemma WipedIs()
    ensures var n := Voted(BeginElection(ONE), 3, 2); 2 in n.ballot.election.pending && n.ballot.election.term == 1
    ensures var (n', reply) := AnswerVote(Wiped(), VoteRequest(2, 1, 2, 0, 0));
            && Wiped().log == [SENTINEL] && reply == VoteReply(2, 1, 2, 2, true)
  {
  }

  lemma SecondWins()
    ensures var n := BeginElection(Standing(TWO));
            && 1 in n.ballot.election.pending && n.ballot.election.term == n.currentTerm() == 2
            && CountVote(n, 1, 2, true).Leads() && CountVote(n, 1, 2, true).currentTerm() == 2
    ensures Elected(Standing(THREE)).Leads() && Elected(Standing(THREE)).currentTerm() == 2
  {
    assert |{1, 3}| == 2;
  }

  /**
   Nor is H1 for the granted votes enough: a refusal that comes late, in the candidate's own term, wipes the vote it
   has cast.  Node 1 votes twice in term 2, and two nodes lead that term.
   */
  lemma LateRefusalTwoLeaders() returns (run: seq<World>, steps: seq<Step>)
    ensures LawfulGrants(run, steps) && Init(run[0]) && run[0].nodes.Keys == {1, 2, 3}
    ensures {VoteReply(2, 1, 2, 2, true), VoteReply(3, 1, 2, 2, true)} <= Last(run).net
    ensures LeadsIn(Last(run), 2, 2) && LeadsIn(Last(run), 3, 2)
  {
    hide LawfulGrants, Lawful, Init, Last, Elected, Voted, Standing, BeginElection, CountVote, AnswerVote, Wiped;
    run, steps := RefusalPending();
    WipedIs();
    SecondWins();
    LawfulAreGrants(run, steps);
    run, steps := ExtendGrants(run, steps, Count(VoteReply(1, 2, 1, 2, false)));
    assert Last(run).nodes[1] == Wiped() by { WipedIsCount(); }
    run, steps := ExtendGrants(run, steps, Answer(VoteRequest(2, 1, 2, 0, 0)));
    run, steps := ExtendGrants(run, steps, Count(VoteReply(2, 1, 2, 2, true)));
  }

  lemma WipedIsCount()
    ensures Wiped() == CountVote(Voted(BeginElection(ONE), 3, 2), 2, 2, false)
  {
  }

  lemma LawfulAreGrants(run: seq<World>, steps: seq<Step>)
    requires Lawful(run, steps)
    ensures LawfulGrants(run, steps)
  {
    hide TimelyTakes, MatchingDelivers, LeadingSends, SafeCount;
  }

  lemma SecondStoodTwice() returns (run: seq<World>, steps: seq<Step>)
    ensures Lawful(run, steps) && Init(run[0]) && run[0].nodes.Keys == {1, 2, 3}
    ensures var w := Last(run);
            && Trio(w, 1, 2, 3) && w.nodes[1] == BeginElection(ONE) && w.nodes[3] == THREE
            && w.nodes[1].currentTerm() == 1 && w.nodes[1].log == [SENTINEL] && VoteRequest(1, 2, 1, 0, 0) in w.net
            && w.nodes[2].id == 2 && w.nodes[2].currentTerm() == 2 && w.nodes[2].log == [SENTINEL]
  {
    hide Lawful, Init, Last, Standing, BeginElection;
    run, steps := FirstAsks();
    run, steps := Fail(run, steps, 2, 1, 3);
    StandingIs(TWO);
    run, steps := Fail(run, steps, 2, 1, 3);
    StandingIs(Standing(TWO));
  }

  // Node 1 has voted in term 3; node 2, in term 2, has refused it the vote it asked for in term 1.
  lemma OldRefusalPending() returns (run: seq<World>, steps: seq<Step>)
    ensures Lawful(run, steps) && Init(run[0]) && run[0].nodes.Keys == {1, 2, 3}
    ensures var w := Last(run);
            && 1 in w.nodes && w.nodes[1] == Voted(BeginElection(ONE), 3, 3) && VoteReply(1, 2, 1, 2, false) in w.net
  {
    hide Lawful, Init, Last, Voted, Standing, BeginElection;
    run, steps := SecondStoodTwice();
    run, steps := Fail(run, steps, 3, 1, 2);
    StandingIs(THREE);
    run, steps := Fail(run, steps, 3, 1, 2);
    StandingIs(Standing(THREE));
    run, steps := VoteOf(run, steps, 3, 1, 2);
    run, steps := ExtendLawful(run, steps, Answer(VoteRequest(1, 2, 1, 0, 0)));
  }

  /** And terms can go back: the last step of this run takes node 1 from term 3 to term 2. */
  lemma LateRefusalLowersTerm() returns (run: seq<World>, steps: seq<Step>)
    ensures LawfulGrants(run, steps) && Init(run[0]) && run[0].nodes.Keys == {1, 2, 3} && |run| > 1
    ensures var (w, w') := (run[|run| - 2], Last(run));
            && 1 in w.nodes && w.nodes[1].currentTerm() == 3 && 1 in w'.nodes && w'.nodes[1].currentTerm() == 2
  {
    hide Lawful, Init, BeginElection;
    var before, taken := OldRefusalPending();
    BegunIs(ONE);
    LawfulAreGrants(before, taken);
    run, steps := ExtendGrants(before, taken, Count(VoteReply(1, 2, 1, 2, false)));
  }

  /** H1 at the step, for every vote reply: handling it keeps the election invariant and the candidate's term exactly when H1 allows it. */
  lemma CountKeepsIff(w: World, m: Message)
    requires Inv(w) && Enabled(w, Count(m))
    ensures var n, w' := w.nodes[m.cand], Next(w, Count(m));
            (Inv(w') && w'.nodes[m.cand].currentTerm() >= n.currentTerm()) <==> Harmless(n, m)
  {
    hide Inv, CountVote;
    var n, w' := w.nodes[m.cand], Next(w, Count(m));
    ElectionBehind(w, m.cand);
    if Harmless(n, m) {
      InvStep(w, Count(m));
      TermsNeverDecrease(w, Count(m), m.cand);
    } else if Inv(w') {
      LeaderInElection(w', m.cand);
      HarmfulCount(n, m);
      if n.ballot.votedFor != NONE && w'.nodes[m.cand].currentTerm() == n.currentTerm() {
        VoteOnRecord(w, m.cand);
        VoteKept(w', m.cand);
      }
    }
  }

  // A harmful reply makes a leader of a later term than the election's, or lowers the term, or wipes the vote.
  lemma HarmfulCount(n: NodeState, m: Message)
    requires m.VoteReply? && !Harmless(n, m) && n.ballot.election.term <= n.currentTerm()
    ensures var n' := CountVote(n, m.voter, m.term, m.granted);
            || (n'.Leads() && n'.ballot.election.term < n'.currentTerm())
            || n'.currentTerm() < n.currentTerm()
            || (n'.currentTerm() == n.currentTerm() && n'.ballot.votedFor == NONE && n.ballot.votedFor != NONE)
  {
  }

  lemma VoteOnRecord(w: World, c: int)
    requires Inv(w) && c in w.nodes && w.nodes[c].ballot.votedFor != NONE
    ensures (c, w.nodes[c].currentTerm()) in w.past.votes
  {
    assert PollOf(w).ballots[c] == w.nodes[c].ballot;
  }

  lemma VoteKept(w: World, c: int)
    requires Inv(w) && c in w.nodes && (c, w.nodes[c].currentTerm()) in w.past.votes
    ensures w.nodes[c].ballot.votedFor != NONE
  {
    assert PollOf(w).ballots[c] == w.nodes[c].ballot && (c, w.nodes[c].currentTerm()) in PollOf(w).votes;
  }

  // -----  H2  -----

  lemma TwoAsked(x: Command, y: Command) returns (run: seq<World>, steps: seq<Step>)
    ensures Lawful(run, steps) && Init(run[0]) && run[0].nodes.Keys == {1, 2, 3}
    ensures var w := Last(run);
            Trio(w, 1, 2, 3) && w.nodes[1] == Propose(ONE, x) && w.nodes[2] == Propose(TWO, y) && w.nodes[3] == THREE
  {
    hide Lawful, Init, Last;
    run, steps := FreshTrio();
    var w := Last(run);
    run, steps := Asked(run, steps, 1, x);
    run, steps := Asked(run, steps, 2, y);
    TrioStays(w, Last(run), 1, 2, 3);
  }

  // Nodes 1 and 2 hold proposals of term 0 when they lead terms 1 and 2.
  lemma OldProposals(x: Command, y: Command) returns (run: seq<World>, steps: seq<Step>)
    ensures Lawful(run, steps) && Init(run[0]) && run[0].nodes.Keys == {1, 2, 3}
    ensures var w := Last(run);
            && Trio(w, 1, 2, 3)
            && w.nodes[1] == Elected(Propose(ONE, x)) && w.nodes[2] == Elected(Standing(Propose(TWO, y)))
  {
    hide Lawful, Init, Last, Elected, Voted, Standing;
    run, steps := TwoAsked(x, y);
    run, steps := Elect(run, steps, 1, 3, 2);
    VotedIs(THREE, 1, 1);
    run, steps := Fail(run, steps, 2, 1, 3);
    StandingIs(Propose(TWO, y));
    run, steps := Elect(run, steps, 2, 3, 1);
  }

  /**
   Without H2 log matching fails: two leaders append different proposals, both stamped with term 0, at the same index.
   */
  lemma OldProposalsMismatch() returns (run: seq<World>, steps: seq<Step>)
    ensures IsRun(run, steps) && Init(run[0]) && run[0].nodes.Keys == {1, 2, 3}
    ensures SafeCounts(run, steps) && MatchingDelivers(run, steps) && LeadingSends(run, steps)
    ensures 1 in Last(run).nodes && 2 in Last(run).nodes && Mismatch(Last(run).nodes[1].log, Last(run).nodes[2].log, 1)
  {
    hide IsRun, Init, SafeCounts, TimelyTakes, MatchingDelivers, LeadingSends, Last, Elected, Standing;
    run, steps := OldProposals(Noop, Undecodable);
    ElectedIs(Propose(ONE, Noop));
    StandingIs(Propose(TWO, Undecodable));
    ElectedIs(Standing(Propose(TWO, Undecodable)));
    run, steps := Extend(run, steps, Take(1));
    run, steps := Extend(run, steps, Take(2));
    assert Last(run).nodes[1].log == [SENTINEL, LogEntry(0, 1, Noop)];
    assert Last(run).nodes[2].log == [SENTINEL, LogEntry(0, 1, Undecodable)];
    assert Last(run).nodes[1].log[..2][1] != Last(run).nodes[2].log[..2][1];
  }

  /**
   H2 at the step: a leader's append keeps all logs rooted in those of their terms' leaders exactly when the proposal was
   stamped in the leader's term, or the log of the term it was stamped in goes on with just that entry.
   */
  lemma TakeKeepsLogsIff(w: World, st: Step)
    requires FullInv(w) && Enabled(w, st) && st.Take? && w.nodes[Actor(st)].Leads()
    ensures var n := w.nodes[Actor(st)];
            var (s, longer) := (n.proposals[0].term, Appended(n.log, n.proposals[0]));
            LogInv(Next(w, st)) <==> s == n.currentTerm() || (s in w.past.ledLog && longer <= w.past.ledLog[s])
  {
    var w', n, terms := Next(w, st), w.nodes[Actor(st)], w.past.ledLog;
    var s, longer := n.proposals[0].term, Appended(n.log, n.proposals[0]);
    if LogInv(w') {
      AppendedEntryRooted(w, st);
    }
    if s == n.currentTerm() {
      TakeKeepsLogs(w, st);
    } else if s in terms && longer <= terms[s] {
      assert LeaderCurrent(w, Actor(st));
      GrownIsRooted(n.log, longer, terms, s, n.currentTerm());
      LongerKeepsLogs(w, st);
    }
  }

  lemma AppendedEntryRooted(w: World, st: Step)
    requires Enabled(w, st) && st.Take? && w.nodes[Actor(st)].Leads() && LogInv(Next(w, st))
    ensures var n := w.nodes[Actor(st)];
            var (s, longer) := (n.proposals[0].term, Appended(n.log, n.proposals[0]));
            s == n.currentTerm() || (s in w.past.ledLog && longer <= w.past.ledLog[s])
  {
    var w', i := Next(w, st), Actor(st);
    var longer := w'.nodes[i].log;
    assert Rooted(longer, w'.past.ledLog);
    assert EntryRooted(longer, |longer| - 1, w'.past.ledLog);
    assert longer[..|longer|] == longer;
  }

  // A log that is also a prefix of another term's log may become its own term's.
  lemma GrownIsRooted(log: Log, longer: Log, terms: TermLogs, s: int, t: int)
    requires TermLogsRooted(terms) && s in terms && longer <= terms[s] && s != t && log <= longer
    requires t in terms && log == terms[t]
    ensures Rooted(longer, terms[t := longer]) && WellIndexed(longer)
  {
    RootedShorter(terms[s], terms, |longer|);
    assert terms[s][..|longer|] == longer;
    RootedLater(longer, terms, t, longer);
  }

  // -----  H3  -----

  // The log of a leader of term t that added one entry to a fresh log.
  function FirstOf(t: int): Log {
    OneEntry(t, Noop)
  }

  function OneEntry(t: int, x: Command): Log {
    [SENTINEL, LogEntry(t, 1, x)]
  }

  // The node has committed one entry or none, and applied nothing.
  predicate NothingApplied(n: NodeState) {
    0 <= n.commitIndex <= 1 && n.lastApplied == 0 && n.groups == map[]
  }

  // Node 1 leads term 1; node 3 voted for it.
  lemma FirstLeads() returns (run: seq<World>, steps: seq<Step>)
    ensures AllLocal(steps)
    ensures Lawful(run, steps) && Init(run[0]) && run[0].nodes.Keys == {1, 2, 3} && Trio(Last(run), 1, 2, 3)
    ensures var (n, v) := (Last(run).nodes[1], Last(run).nodes[3]);
            && Last(run).nodes[2] == TWO
            && Ready(n) && n.currentTerm() == 1 && n.log == [SENTINEL] && n.commitIndex == 0 && NothingApplied(n)
            && 2 in n.nextIndex && n.nextIndex[2] == 1 && 3 in n.nextIndex && n.nextIndex[3] == 1
            && Idle(v) && v.currentTerm() == 1 && v.log == [SENTINEL] && v.commitIndex == 0
  {
    hide Lawful, Init, Last, Elected, Voted;
    run, steps := FreshTrio();
    run, steps := Elect(run, steps, 1, 3, 2);
    ElectedIs(ONE);
    VotedIs(THREE, 1, 1);
  }

  // Nodes 1 and 2 lead terms 1 and 2, each with an entry of its own that nobody else has.
  lemma LeadersApart() returns (run: seq<World>, steps: seq<Step>)
    ensures AllLocal(steps)
    ensures Lawful(run, steps) && Init(run[0]) && run[0].nodes.Keys == {1, 2, 3} && Trio(Last(run), 1, 2, 3)
    ensures var (n, m, v) := (Last(run).nodes[1], Last(run).nodes[2], Last(run).nodes[3]);
            && Ready(n) && n.currentTerm() == 1 && n.log == FirstOf(1) && n.commitIndex == 0
            && 2 in n.nextIndex && n.nextIndex[2] == 1 && 3 in n.nextIndex && n.nextIndex[3] == 1
            && Ready(m) && m.currentTerm() == 2 && m.log == FirstOf(2) && m.commitIndex == 0
            && 3 in m.nextIndex && m.nextIndex[3] == 1
            && Idle(v) && v.currentTerm() == 2 && v.log == [SENTINEL] && v.commitIndex == 0
  {
    hide Lawful, Init, Last, Elected, Voted, Standing;
    run, steps := FirstLeads();
    var v := Last(run).nodes[3];
    run, steps := GrowInTrio(run, steps, 1, 2, 3);
    run, steps := Fail(run, steps, 2, 1, 3);
    StandingIs(TWO);
    run, steps := Elect(run, steps, 2, 3, 1);
    ElectedIs(Standing(TWO));
    VotedIs(v, 2, 2);
    run, steps := GrowInTrio(run, steps, 2, 1, 3);
  }

  lemma FreshRequest(n: NodeState)
    requires n.log == [SENTINEL]
    ensures AskVote(n, 2) == VoteRequest(n.id, 2, n.ballot.election.term, 0, 0)
  {
  }

  lemma ThirdAsks() returns (run: seq<World>, steps: seq<Step>)
    ensures AllLocal(steps)
    ensures Lawful(run, steps) && Init(run[0]) && run[0].nodes.Keys == {1, 2, 3} && Trio(Last(run), 1, 2, 3)
    ensures VoteRequest(3, 2, 3, 0, 0) in Last(run).net
    ensures var (n, m, v) := (Last(run).nodes[1], Last(run).nodes[2], Last(run).nodes[3]);
            && n.currentTerm() == 1 && n.log == FirstOf(1) && Ready(m) && m.currentTerm() == 2 && m.log == FirstOf(2)
            && m.commitIndex == 0 && v.currentTerm() == 3 && v.log == [SENTINEL]
  {
    hide AllLocal, Lawful, Init, Last, BeginElection, FirstOf, LastTermOf;
    run, steps := LeadersApart();
    var w := Last(run);
    BegunIs(w.nodes[3]);
    FreshRequest(BeginElection(w.nodes[3]));
    run, steps := ExtendLawful(run, steps, Timeout(3));
    run, steps := ExtendLawful(run, steps, Ask(3, 2));
    assert Last(run).nodes == w.nodes[3 := BeginElection(w.nodes[3])];
    TrioStays(w, Last(run), 1, 2, 3);
  }

  lemma ThrowsBack(n: NodeState)
    requires n.log == FirstOf(2) && n.currentTerm() == 2
    ensures AnswerVote(n, VoteRequest(3, 2, 3, 0, 0)).0 == BecomeFollower(n, 3)
  {
  }

  // Node 2 is thrown back to term 3 by a candidate that cannot win.
  lemma ThrownBack() returns (run: seq<World>, steps: seq<Step>)
    ensures AllLocal(steps)
    ensures Lawful(run, steps) && Init(run[0]) && run[0].nodes.Keys == {1, 2, 3} && Trio(Last(run), 1, 2, 3)
    ensures var (n, m, v) := (Last(run).nodes[1], Last(run).nodes[2], Last(run).nodes[3]);
            && n.currentTerm() == 1 && n.log == FirstOf(1) && Idle(m) && m.currentTerm() == 3 && m.log == FirstOf(2)
            && m.commitIndex == 0 && m.proposals == [] && v.currentTerm() == 3 && v.log == [SENTINEL]
  {
    hide AllLocal, Lawful, Init, Last, AnswerVote;
    run, steps := ThirdAsks();
    var w := Last(run);
    ThrowsBack(w.nodes[2]);
    run, steps := ExtendLawful(run, steps, Answer(VoteRequest(3, 2, 3, 0, 0)));
    TrioStays(w, Last(run), 1, 2, 3);
  }

  // ... and leads again in term 4.
  lemma LeadsAgain() returns (run: seq<World>, steps: seq<Step>)
    ensures AllLocal(steps)
    ensures Lawful(run, steps) && Init(run[0]) && run[0].nodes.Keys == {1, 2, 3} && Trio(Last(run), 1, 2, 3)
    ensures var (n, m) := (Last(run).nodes[1], Last(run).nodes[2]);
            && n.currentTerm() == 1 && n.log == FirstOf(1)
            && Ready(m) && m.currentTerm() == 4 && m.log == FirstOf(2) && m.commitIndex == 0
            && 1 in m.nextIndex && m.nextIndex[1] == 2
  {
    hide Lawful, Init, Last, Elected, Voted;
    run, steps := ThrownBack();
    ElectedIs(Last(run).nodes[2]);
    run, steps := Elect(run, steps, 2, 3, 1);
  }

  lemma BegunIs(n: NodeState)
    ensures var n' := BeginElection(n);
            && n'.id == n.id && n'.peers == n.peers && n'.log == n.log && n'.currentTerm() == n.currentTerm() + 1
            && n'.ballot.election.term == n'.currentTerm() && n'.ballot.election.pending == n.peers
  {
  }

  // Node 2 leads term 4 with a second entry of its own; node 1 has another first entry.
  lemma LeadsOn() returns (run: seq<World>, steps: seq<Step>)
    ensures AllLocal(steps)
    ensures Lawful(run, steps) && Init(run[0]) && run[0].nodes.Keys == {1, 2, 3} && Trio(Last(run), 1, 2, 3)
    ensures var (n, m) := (Last(run).nodes[1], Last(run).nodes[2]);
            && n.currentTerm() == 1 && n.log == FirstOf(1) && m.Leads() && m.currentTerm() == 4 && m.commitIndex == 0
            && m.log == FirstOf(2) + [LogEntry(4, 2, Noop)] && 1 in m.nextIndex && m.nextIndex[1] == 2
  {
    hide AllLocal, Lawful, Init, Last;
    run, steps := LeadsAgain();
    run, steps := GrowInTrio(run, steps, 2, 1, 3);
  }

  /**
   Without H3 log matching fails, even with atomic exchanges: a leader's second entry is put above another leader's first.
   */
  lemma UncheckedPrevTermMismatch() returns (run: seq<World>, actions: seq<Action>)
    ensures PromptActions(run, actions) && Init(run[0]) && run[0].nodes.Keys == {1, 2, 3}
    ensures 1 in Last(run).nodes && 2 in Last(run).nodes && Mismatch(Last(run).nodes[1].log, Last(run).nodes[2].log, 2)
  {
    hide Init, PromptActions, Lawful, AllLocal, Last;
    var steps;
    run, steps := LeadsOn();
    actions := StepsAreActions(run, steps);
    var n, m, e := Last(run).nodes[1], Last(run).nodes[2], LogEntry(4, 2, Noop);
    assert m.log[2..] == [e];
    assert SnapshotFor(m, 1) == AppendRequest(2, 1, 4, 1, 2, [e], 0);
    assert AnswerAppend(n, SnapshotFor(m, 1)).0.log == FirstOf(1) + [e];
    var a := Exchange(2, 1, true);
    run, actions := ExtendActions(run, actions, a);
    assert Last(run).nodes[1].log == FirstOf(1) + [e] && Last(run).nodes[2].log == FirstOf(2) + [e];
    assert Last(run).nodes[1].log[..3][1] != Last(run).nodes[2].log[..3][1];
  }

  /** H3 at the step: an accepted request leaves all logs rooted in those of their terms' leaders exactly when H3 holds of it. */
  lemma DeliverKeepsLogsIff(w: World, st: Step)
    requires FullInv(w) && Enabled(w, st) && st.Deliver? && Accepts(w.nodes[Actor(st)], st.m)
    ensures LogInv(Next(w, st)) <==> MatchingDeliver(w, st)
  {
    hide Inv, Rooted, IsSlice;
    if MatchingDeliver(w, st) {
      DeliverKeepsLogs(w, st);
    } else {
      var log, w' := w.nodes[st.m.to].log, Next(w, st);
      ReceiverFollows(w, st.m);
      MismatchNotRooted(log, st.m, w.past.ledLog);
      assert w'.nodes[st.m.to].log == Spliced(log, st.m.prevIndex, st.m.entries) && w'.past.ledLog == w.past.ledLog;
    }
  }

  // Entries put above one of another term than their leader's log has there.
  lemma MismatchNotRooted(log: Log, m: Message, terms: TermLogs)
    requires TermLogsRooted(terms) && m.AppendRequest? && IsSlice(m, terms) && m.entries != []
    requires m.prevIndex < |log| && log[m.prevIndex].term != m.prevTerm
    ensures !Rooted(Spliced(log, m.prevIndex, m.entries), terms)
  {
    var (k, source, longer) := (m.prevIndex + 1, terms[m.term], Spliced(log, m.prevIndex, m.entries));
    assert EntryRooted(source, k, terms);
    assert longer[k].term == source[k].term && longer[k - 1] == log[k - 1];
    assert longer[..k + 1][k - 1] != source[..k + 1][k - 1];
    assert !EntryRooted(longer, k, terms);
  }

  // -----  H4  -----

  // A heartbeat cut before the leader's first entry is still on its way when the follower has committed that entry.
  lemma HeartbeatDelayed() returns (run: seq<World>, steps: seq<Step>)
    ensures Lawful(run, steps) && Init(run[0]) && run[0].nodes.Keys == {1, 2, 3}
    ensures AppendRequest(1, 3, 1, 0, 0, [], 0) in Last(run).net && Trio(Last(run), 1, 2, 3) && Last(run).nodes[2] == TWO
    ensures var n := Last(run).nodes[3]; n.log == FirstOf(1) && n.commitIndex == 1 && n.currentTerm() == 1 && Idle(n)
    ensures var n := Last(run).nodes[1]; n.log == FirstOf(1) && n.commitIndex == 1 && NothingApplied(n)
  {
    hide Lawful, Init, Last, AnswerAppend;
    run, steps := EntryCommitted();
    var w := Last(run);
    run, steps := Cut(run, steps, 1, 3);
    var m := AppendRequest(1, 3, 1, 1, 1, [], 1);
    assert m in Last(run).net;
    CommitFollows(w.nodes[3]);
    run, steps := Handle(run, steps, m);
    TrioStays(w, Last(run), 1, 2, 3);
  }

  // The leader has committed its first entry, which node 3 holds.
  lemma EntryCommitted() returns (run: seq<World>, steps: seq<Step>)
    ensures Lawful(run, steps) && Init(run[0]) && run[0].nodes.Keys == {1, 2, 3} && Trio(Last(run), 1, 2, 3)
    ensures AppendRequest(1, 3, 1, 0, 0, [], 0) in Last(run).net
    ensures var (n, v) := (Last(run).nodes[1], Last(run).nodes[3]);
            && Ready(n) && n.currentTerm() == 1 && n.log == FirstOf(1) && n.commitIndex == 1
            && 3 in n.nextIndex && n.nextIndex[3] == 2
            && NothingApplied(n) && Last(run).nodes[2] == TWO && Idle(v)
            && v.currentTerm() == 1 && v.log == FirstOf(1) && v.commitIndex == 0
  {
    hide Lawful, Init, Last, MaybeCommit;
    run, steps := EntryHeld();
    var w := Last(run);
    CommitsFirst(w.nodes[1], 1, Noop);
    run, steps := ExtendLawful(run, steps, Ack(AppendReply(1, 3, 1, 1, true)));
    TrioStays(w, Last(run), 1, 2, 3);
  }

  lemma CommitFollows(v: NodeState)
    requires v.currentTerm() == 1 && v.log == FirstOf(1) && v.commitIndex == 0
    ensures AnswerAppend(v, AppendRequest(1, 3, 1, 1, 1, [], 1)).0 == v.(leaderId := 1, commitIndex := 1)
  {
    assert v.log[..2] == v.log;
  }

  lemma CommitsFirst(n: NodeState, t: int, x: Command)
    requires n.log == OneEntry(t, x) && n.currentTerm() == t && n.commitIndex == 0 && |n.peers| == 2
    ensures MaybeCommit(Informed(n, 3)) == Informed(n, 3).(commitIndex := 1)
  {
    var n' := Informed(n, 3);
    assert 3 in Matching(n', 1);
    SubsetSize({3}, Matching(n', 1));
    assert Committable(n', 1);
  }

  // The leader's first entry has reached node 3, which has said so.
  lemma EntryHeld() returns (run: seq<World>, steps: seq<Step>)
    ensures Lawful(run, steps) && Init(run[0]) && run[0].nodes.Keys == {1, 2, 3} && Trio(Last(run), 1, 2, 3)
    ensures AppendRequest(1, 3, 1, 0, 0, [], 0) in Last(run).net && AppendReply(1, 3, 1, 1, true) in Last(run).net
    ensures var (n, v) := (Last(run).nodes[1], Last(run).nodes[3]);
            && Ready(n) && n.currentTerm() == 1 && n.log == FirstOf(1) && n.commitIndex == 0 && |n.peers| == 2
            && NothingApplied(n) && Last(run).nodes[2] == TWO && Idle(v)
            && v.currentTerm() == 1 && v.log == FirstOf(1) && v.commitIndex == 0
  {
    hide Lawful, Init, Last;
    run, steps := FirstLeads();
    var w := Last(run);
    run, steps := Cut(run, steps, 1, 3);
    assert AppendRequest(1, 3, 1, 0, 0, [], 0) in Last(run).net;
    run, steps := Grow(run, steps, 1, Noop);
    run, steps := Cut(run, steps, 1, 3);
    var m := AppendRequest(1, 3, 1, 0, 0, [LogEntry(1, 1, Noop)], 0);
    assert m in Last(run).net;
    TakesFirst(w.nodes[3], 1, 1, Noop);
    run, steps := Handle(run, steps, m);
    TrioStays(w, Last(run), 1, 2, 3);
    assert |{2, 3}| == 2;
  }

  lemma TakesFirst(v: NodeState, l: int, t: int, x: Command)
    requires v.id == 3 && v.currentTerm() == t && v.log == [SENTINEL] && v.commitIndex >= 0
    ensures var (v', reply) := AnswerAppend(v, AppendRequest(l, 3, t, 0, 0, [LogEntry(t, 1, x)], 0));
            && reply == AppendReply(l, 3, 1, t, true)
            && v' == v.(leaderId := l, log := OneEntry(t, x))
  {
  }

  /**
   Without H4 a request handled late makes a follower drop an entry it has committed: its commit index ends up past
   the end of its log.
   */
  lemma LateRequestDropsCommitted() returns (run: seq<World>, steps: seq<Step>)
    ensures Lawful(run, steps) && Init(run[0]) && run[0].nodes.Keys == {1, 2, 3} && Trio(Last(run), 1, 2, 3)
    ensures var (n, v) := (Last(run).nodes[1], Last(run).nodes[3]);
            && n.log == FirstOf(1) && n.commitIndex == 1 && NothingApplied(n) && Last(run).nodes[2] == TWO
            && v.commitIndex == 1 && v.log == [SENTINEL] && v.currentTerm() == 1 && Idle(v)
  {
    hide Lawful, Init, Last;
    run, steps := HeartbeatDelayed();
    var w := Last(run);
    run, steps := Handle(run, steps, AppendRequest(1, 3, 1, 0, 0, [], 0));
    TrioStays(w, Last(run), 1, 2, 3);
  }

  lemma FirstApplied() returns (run: seq<World>, steps: seq<Step>)
    ensures Lawful(run, steps) && Init(run[0]) && run[0].nodes.Keys == {1, 2, 3} && Trio(Last(run), 1, 2, 3)
    ensures var (n, v) := (Last(run).nodes[1], Last(run).nodes[3]);
            && n.lastApplied == 1 && n.groups == map[] && Last(run).nodes[2] == TWO
            && v.commitIndex == 1 && v.log == [SENTINEL] && v.currentTerm() == 1 && Idle(v)
  {
    hide Lawful, Init, Last;
    run, steps := LateRequestDropsCommitted();
    var w := Last(run);
    run, steps := ExtendLawful(run, steps, Apply(1));
    TrioStays(w, Last(run), 1, 2, 3);
  }

  // Node 1 has applied its entry; node 2 is elected by node 3, which has lost it.
  lemma ElectedOnLoss() returns (run: seq<World>, steps: seq<Step>)
    ensures Lawful(run, steps) && Init(run[0]) && run[0].nodes.Keys == {1, 2, 3} && Trio(Last(run), 1, 2, 3)
    ensures var (n, m, v) := (Last(run).nodes[1], Last(run).nodes[2], Last(run).nodes[3]);
            && n.lastApplied == 1 && n.groups == map[]
            && Ready(m) && m.currentTerm() == 2 && m.log == [SENTINEL] && m.commitIndex == 0 && NothingApplied(m)
            && 3 in m.nextIndex && m.nextIndex[3] == 1
            && v.currentTerm() == 2 && v.log == [SENTINEL] && v.commitIndex == 1
  {
    hide Lawful, Init, Last, Elected, Voted, Standing;
    run, steps := FirstApplied();
    StandingIs(TWO);
    VotedIs(Last(run).nodes[3], 2, 2);
    run, steps := Fail(run, steps, 2, 1, 3);
    ElectedIs(Standing(TWO));
    run, steps := Elect(run, steps, 2, 3, 1);
  }

  // ... and has another first entry of its own replicated.
  lemma SecondFirst(x: Command) returns (run: seq<World>, steps: seq<Step>)
    ensures Lawful(run, steps) && Init(run[0]) && run[0].nodes.Keys == {1, 2, 3}
    ensures 1 in Last(run).nodes && 2 in Last(run).nodes && AppendReply(2, 3, 1, 2, true) in Last(run).net
    ensures var (n, m) := (Last(run).nodes[1], Last(run).nodes[2]);
            && n.lastApplied == 1 && n.groups == map[]
            && m.id == 2 && m.currentTerm() == 2 && m.log == OneEntry(2, x) && m.commitIndex == 0 && NothingApplied(m)
            && |m.peers| == 2
  {
    hide Lawful, Init, Last, AnswerAppend;
    run, steps := ElectedOnLoss();
    TakesFirst(Last(run).nodes[3], 2, 2, x);
    run, steps := Grow(run, steps, 2, x);
    run, steps := Cut(run, steps, 2, 3);
    var m := AppendRequest(2, 3, 2, 0, 0, [LogEntry(2, 1, x)], 0);
    assert m in Last(run).net;
    run, steps := Handle(run, steps, m);
    assert |{1, 3}| == 2;
  }

  /** So without H4 even a cluster of three has two nodes apply different commands at one index. */
  lemma LateRequestAppliesConflict() returns (run: seq<World>, steps: seq<Step>)
    ensures Lawful(run, steps) && Init(run[0]) && run[0].nodes.Keys == {1, 2, 3}
    ensures 1 in Last(run).nodes && 2 in Last(run).nodes
    ensures var (n, m) := (Last(run).nodes[1], Last(run).nodes[2]);
            n.lastApplied == 1 == m.lastApplied && n.groups != m.groups
  {
    hide Lawful, Init, Last, MaybeCommit;
    var x := JoinGroup("g", "m", []);
    run, steps := SecondFirst(x);
    CommitsFirst(Last(run).nodes[2], 2, x);
    run, steps := ExtendLawful(run, steps, Ack(AppendReply(2, 3, 1, 2, true)));
    assert Last(run).nodes[2].commitIndex == 1;
    run, steps := ExtendLawful(run, steps, Apply(2));
    assert "g" in Last(run).nodes[2].groups;
  }

  /**
   H4, for the follower: a request cut from the leader's log, handled late, leaves the follower
   all it had exactly when it reaches to the end of what it had.
   */
  lemma LateRequestKeepsLogIff(n: NodeState, m: Message, l: int, log: Log)
    requires WellIndexed(log) && n.log <= log && m.AppendRequest? && CutFrom(m, l, log) && Accepts(n, m)
    ensures n.log <= AnswerAppend(n, m).0.log <==> |n.log| <= m.prevIndex + 1 + |m.entries|
  {
    DeliveredPrefix(n, m, l, log);
    var to := m.prevIndex + 1 + |m.entries|;
    if |n.log| <= to {
      assert log[..to][..|n.log|] == log[..|n.log|];
    }
  }

  /** ... and its commit index stays inside its log exactly when the request reaches beyond what it had committed. */
  lemma LateRequestKeepsCommitIff(n: NodeState, m: Message, l: int, log: Log)
    requires WellIndexed(log) && n.log <= log && m.AppendRequest? && CutFrom(m, l, log) && Accepts(n, m)
    requires 0 <= n.commitIndex < |n.log|
    ensures var n' := AnswerAppend(n, m).0;
            (n.commitIndex <= n'.commitIndex < |n'.log|) <==> n.commitIndex <= m.prevIndex + |m.entries|
  {
    DeliveredPrefix(n, m, l, log);
  }

  /**
   H4, for the leader: told that a peer took over its log as it was when `known` entries long,
   it records a matchIndex that is true exactly when its log has not grown since.
   */
  lemma LateReplyTrueIff(n: NodeState, p: int, sent: int, term: int, known: int)
    requires term <= n.currentTerm() && 0 < sent && 0 < known <= |n.log|
    ensures var n' := CountAppend(n, p, sent, term, true);
            && p in n'.matchIndex
            && (Agree(n.log[..known], n.log, n'.matchIndex[p] + 1) <==> |n.log| == known)
  {
  }

  // -----  H6  -----

  // Node 2 leads term 2, and node 3 has its entry; node 1, which led term 1, has fallen back.
  lemma Deposed() returns (run: seq<World>, steps: seq<Step>)
    ensures Lawful(run, steps) && Init(run[0]) && run[0].nodes.Keys == {1, 2, 3} && Trio(Last(run), 1, 2, 3)
    ensures var (n, m, v) := (Last(run).nodes[1], Last(run).nodes[2], Last(run).nodes[3]);
            && n.currentTerm() == 2 && n.log == [SENTINEL] && n.commitIndex == 0
            && 2 in n.nextIndex && n.nextIndex[2] == 1
            && Ready(m) && m.currentTerm() == 2 && m.log == FirstOf(2) && v.log == FirstOf(2)
  {
    hide Lawful, Init, Last;
    run, steps := CopiedOnce();
    var w := Last(run);
    run, steps := Cut(run, steps, 1, 3);
    var m := AppendRequest(1, 3, 1, 0, 0, [], 0);
    assert m in Last(run).net;
    run, steps := Handle(run, steps, m);
    run, steps := ExtendLawful(run, steps, Ack(AppendReply(1, 3, 0, 2, false)));
    TrioStays(w, Last(run), 1, 2, 3);
  }

  // Nodes 1 and 2 lead terms 1 and 2; node 2 has made an entry, and node 3 has it.
  lemma CopiedOnce() returns (run: seq<World>, steps: seq<Step>)
    ensures Lawful(run, steps) && Init(run[0]) && run[0].nodes.Keys == {1, 2, 3} && Trio(Last(run), 1, 2, 3)
    ensures var (n, m, v) := (Last(run).nodes[1], Last(run).nodes[2], Last(run).nodes[3]);
            && Ready(n) && n.currentTerm() == 1 && n.log == [SENTINEL] && n.commitIndex == 0
            && 2 in n.nextIndex && n.nextIndex[2] == 1 && 3 in n.nextIndex && n.nextIndex[3] == 1
            && Ready(m) && m.currentTerm() == 2 && m.log == FirstOf(2)
            && v.currentTerm() == 2 && v.log == FirstOf(2)
  {
    hide Lawful, Init, Last, AnswerAppend;
    run, steps := SecondLeads();
    var w := Last(run);
    TakesFirst(w.nodes[3], 2, 2, Noop);
    run, steps := GrowInTrio(run, steps, 2, 1, 3);
    run, steps := Cut(run, steps, 2, 3);
    var m := AppendRequest(2, 3, 2, 0, 0, [LogEntry(2, 1, Noop)], 0);
    assert m in Last(run).net;
    run, steps := Handle(run, steps, m);
    TrioStays(w, Last(run), 1, 2, 3);
  }

  // Nodes 1 and 2 lead terms 1 and 2, with fresh logs.
  lemma SecondLeads() returns (run: seq<World>, steps: seq<Step>)
    ensures Lawful(run, steps) && Init(run[0]) && run[0].nodes.Keys == {1, 2, 3} && Trio(Last(run), 1, 2, 3)
    ensures var (n, m, v) := (Last(run).nodes[1], Last(run).nodes[2], Last(run).nodes[3]);
            && Ready(n) && n.currentTerm() == 1 && n.log == [SENTINEL] && n.commitIndex == 0
            && 2 in n.nextIndex && n.nextIndex[2] == 1 && 3 in n.nextIndex && n.nextIndex[3] == 1
            && Ready(m) && m.currentTerm() == 2 && m.log == [SENTINEL] && m.commitIndex == 0
            && 3 in m.nextIndex && m.nextIndex[3] == 1
            && v.currentTerm() == 2 && v.log == [SENTINEL] && v.commitIndex == 0
  {
    hide Lawful, Init, Last, Elected, Voted, Standing;
    run, steps := FirstLeads();
    var v := Last(run).nodes[3];
    run, steps := Fail(run, steps, 2, 1, 3);
    StandingIs(TWO);
    run, steps := Elect(run, steps, 2, 3, 1);
    ElectedIs(Standing(TWO));
    VotedIs(v, 2, 2);
  }

  // Node 1 sends its log under the term that node 2 leads, and node 2 cuts its own back to it.
  lemma CutBack() returns (run: seq<World>, steps: seq<Step>)
    ensures IsRun(run, steps) && Init(run[0]) && run[0].nodes.Keys == {1, 2, 3}
    ensures SafeCounts(run, steps) && TimelyTakes(run, steps) && MatchingDelivers(run, steps)
    ensures 2 in Last(run).nodes && 3 in Last(run).nodes && Last(run).nodes[3].log == FirstOf(2)
    ensures var m := Last(run).nodes[2]; Ready(m) && m.currentTerm() == 2 && m.log == [SENTINEL]
  {
    hide Init, Last, IsRun, SafeCounts, TimelyTakes, MatchingDelivers, LeadingSends;
    run, steps := Deposed();
    var m := AppendRequest(1, 2, 2, 0, 0, [], 0);
    NextOf(Last(run), Send(1, 2));
    run, steps := Extend(run, steps, Send(1, 2));
    assert m in Last(run).net;
    NextOf(Last(run), Deliver(m));
    run, steps := Extend(run, steps, Deliver(m));
  }

  /**
   Without H6 log matching fails: a node that has lost its lead sends its own log under the new term, the new leader
   cuts its log back to that, and then makes a second first entry.
   */
  lemma LateSendMismatch() returns (run: seq<World>, steps: seq<Step>)
    ensures IsRun(run, steps) && Init(run[0]) && run[0].nodes.Keys == {1, 2, 3}
    ensures SafeCounts(run, steps) && TimelyTakes(run, steps) && MatchingDelivers(run, steps)
    ensures 2 in Last(run).nodes && 3 in Last(run).nodes && Mismatch(Last(run).nodes[2].log, Last(run).nodes[3].log, 1)
  {
    hide Init, Last, IsRun, SafeCounts, TimelyTakes, MatchingDelivers, LeadingSends;
    run, steps := CutBack();
    NextOf(Last(run), Submit(2, Undecodable));
    run, steps := Extend(run, steps, Submit(2, Undecodable));
    NextOf(Last(run), Take(2));
    run, steps := Extend(run, steps, Take(2));
    assert Last(run).nodes[2].log == [SENTINEL, LogEntry(2, 1, Undecodable)] && Last(run).nodes[3].log == FirstOf(2);
    assert Last(run).nodes[2].log[..2][1] != Last(run).nodes[3].log[..2][1];
  }

  /**
   H6 at the step: a snapshot keeps every request a slice of its term's log, addressed to other nodes than that term's
   leader, exactly when its sender leads, or the sender's whole log is a prefix of the log of its term, which another
   node than the peer has led.
   */
  lemma SendKeepsLogsIff(w: World, st: Step)
    requires FullInv(w) && Enabled(w, st) && st.Send?
    ensures var n, terms := w.nodes[st.node], w.past.ledLog;
            var t := n.currentTerm();
            LogInv(Next(w, st)) <==>
              || n.Leads()
              || (LedByOther(w.past.led, t, st.peer) && CanSend(n, st.peer) && t in terms && n.log <= terms[t])
  {
    hide Inv, TermLogsRooted, LeadersCurrent, Rooted, IsSlice, SnapshotFor, CanSend;
    var n, w' := w.nodes[st.node], Next(w, st);
    if n.Leads() {
      SendKeepsLogs(w, st);
    } else {
      CutIsSliceIff(n, st.peer, w.past.ledLog);
      CutTerm(n, st.peer);
      assert WonMarked(w.past.led, st.node, n);
      if AppendSound(SnapshotFor(n, st.peer), w.past.led, w.past.ledLog) {
        LogSteadyKeeps(w, w', st.node, n);
      }
    }
  }

  lemma CutTerm(n: NodeState, p: int)
    requires Lookup(n.nextIndex, p) >= 0
    ensures var m := SnapshotFor(n, p); m.AppendRequest? && m.term == n.currentTerm() && m.to == p
  {
  }

  // A cut through the end of a rooted log is a slice of its term's log exactly when the whole log is a prefix of that.
  lemma CutIsSliceIff(n: NodeState, p: int, terms: TermLogs)
    requires TermLogsRooted(terms) && Rooted(n.log, terms) && n.log != [] && p in n.nextIndex && n.nextIndex[p] >= 0
    ensures IsSlice(SnapshotFor(n, p), terms)
            <==> CanSend(n, p) && n.currentTerm() in terms && n.log <= terms[n.currentTerm()]
  {
    var m, t, last := SnapshotFor(n, p), n.currentTerm(), |n.log| - 1;
    if CanSend(n, p) && t in terms && n.log <= terms[t] {
      SliceOfPrefix(terms[t], n.log, n.nextIndex[p], |n.log|);
    }
    if IsSlice(m, terms) {
      PastEndIsNoSlice(m, terms);
      assert terms[t][last].term == n.log[last].term;
      SameTermAgree(n.log, terms[t], last, terms);
      assert n.log[..last + 1] == n.log;
    }
  }

  // Only the sentinel has term 0.
  lemma PastEndIsNoSlice(m: Message, terms: TermLogs)
    requires TermLogsRooted(terms) && m.AppendRequest? && IsSlice(m, terms)
    ensures m.prevTerm == 0 ==> m.prevIndex == 0
  {
    assert EntryRooted(terms[m.term], m.prevIndex, terms);
  }
}
