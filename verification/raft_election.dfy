/** Election safety: at most one node becomes leader in any term. */
module ElectionSafety {
  import opened Basics
  import opened RaftLogs
  import opened RaftNodes
  import opened RaftSystem

  // The part of a world that elections are about.
  datatype Poll = Poll(
    ballots: map<int, Ballot>, net: set<Message>,
    votes: map<(int, int), int>, counted: map<(int, int), set<int>>, led: set<(int, int)>)

  function PollOf(w: World): Poll {
    Poll(map i | i in w.nodes :: w.nodes[i].ballot, w.net, w.past.votes, w.past.counted, w.past.led)
  }

  function Voters(counted: map<(int, int), set<int>>, c: int, t: int): set<int> {
    if (c, t) in counted then counted[(c, t)] else {}
  }

  // A node's vote is on record while its term lasts, and no record is ahead of its node.
  ghost predicate VotesRecorded(p: Poll) {
    && (forall v, t :: (v, t) in p.votes ==>
      v in p.ballots && p.votes[(v, t)] in p.ballots && t <= p.ballots[v].currentTerm
      && (t == p.ballots[v].currentTerm ==> p.ballots[v].votedFor == p.votes[(v, t)]))
    && (forall v <- p.ballots :: p.ballots[v].votedFor != NONE ==> (v, p.ballots[v].currentTerm) in p.votes)
  }

  ghost predicate Recorded(p: Poll, m: Message) {
    && (m.VoteRequest? ==> m.cand in p.ballots)
    && (m.VoteReply? && m.granted ==> (m.voter, m.asked) in p.votes && p.votes[(m.voter, m.asked)] == m.cand)
  }

  ghost predicate MessagesRecorded(p: Poll) {
    forall m <- p.net :: Recorded(p, m)
  }

  // Whatever a candidate counted was cast for it in that term.
  ghost predicate CountsRecorded(p: Poll) {
    && (forall c, t :: (c, t) in p.counted ==> c in p.ballots && t <= p.ballots[c].election.term)
    && (forall c, t, v :: v in Voters(p.counted, c, t) ==> (v, t) in p.votes && p.votes[(v, t)] == c)
  }

  // The vote counter of a running election is the number of distinct voters.
  ghost predicate TallyExact(p: Poll, c: int)
    requires c in p.ballots
  {
    var e := p.ballots[c].election;
    && 0 <= e.term <= p.ballots[c].currentTerm && (e.pending != {} ==> 0 < e.term && 0 < e.votes)
    && e.votes == |Voters(p.counted, c, e.term)|
    && Voters(p.counted, c, e.term) !! e.pending
  }

  ghost predicate TalliesExact(p: Poll) {
    forall c <- p.ballots :: TallyExact(p, c)
  }

  // Peers number one less than the nodes.
  function Quorum(nodes: int): int {
    (nodes - 1) / 2 + 1
  }

  // Enough votes to win.  A candidate wins on a returned vote, so its own is never enough.
  predicate Winning(votes: int, nodes: int) {
    votes >= Quorum(nodes) && votes >= 2
  }

  // Who led a term was voted for, and leads until its term changes.
  ghost predicate LeadersBacked(p: Poll) {
    && (forall t, c :: (t, c) in p.led ==>
          0 < t && c in p.ballots && (c, t) in p.counted && Winning(|Voters(p.counted, c, t)|, |p.ballots|)
          && (p.ballots[c].currentTerm == t ==> p.ballots[c].role == Leader))
    && (forall c <- p.ballots :: p.ballots[c].role == Leader ==> (p.ballots[c].currentTerm, c) in p.led)
  }

  ghost predicate PollInv(p: Poll) {
    && NONE !in p.ballots
    && VotesRecorded(p) && MessagesRecorded(p) && CountsRecorded(p) && TalliesExact(p) && LeadersBacked(p)
  }

  // The node's vote is untouched, or it fell back to follower in a later term; a leader leads on in its term.
  predicate Steady(b: Ballot, b': Ballot) {
    && b'.election == b.election.(pending := b'.election.pending) && b'.election.pending <= b.election.pending
    && ((b'.currentTerm == b.currentTerm && b'.votedFor == b.votedFor && (b'.role == Leader <==> b.role == Leader))
        || (b'.currentTerm > b.currentTerm && b'.votedFor == NONE && b'.role == Follower))
  }

  ghost predicate AllSteady(p: Poll, p': Poll) {
    && p'.ballots.Keys == p.ballots.Keys
    && (forall i <- p.ballots :: Steady(p.ballots[i], p'.ballots[i]))
    && p'.votes == p.votes && p'.counted == p.counted && p'.led == p.led
    && (forall m <- p'.net :: m in p.net || Recorded(p, m))
  }

  lemma SteadyKeeps(p: Poll, p': Poll)
    requires PollInv(p) && AllSteady(p, p')
    ensures PollInv(p')
  {
    assert |p'.ballots| == |p.ballots| by { assert |p'.ballots.Keys| == |p'.ballots|; }
  }

  function TimeoutPoll(p: Poll, i: int, peers: set<int>): Poll
    requires i in p.ballots
  {
    var t := p.ballots[i].currentTerm + 1;
    p.(ballots := p.ballots[i := CandidateBallot(i, peers, p.ballots[i])],
    votes := p.votes[(i, t) := i], counted := p.counted[(i, t) := {i}])
  }

  // Of the term after its own a node has neither a vote nor a count on record.
  lemma NothingYet(p: Poll, i: int)
    requires PollInv(p) && i in p.ballots
    ensures var t := p.ballots[i].currentTerm + 1; (i, t) !in p.votes && (i, t) !in p.counted && (t, i) !in p.led
  {
    hide MessagesRecorded;
    assert TallyExact(p, i);
  }

  lemma TimeoutVoters(p: Poll, i: int, peers: set<int>, d: int, u: int)
    requires i in p.ballots
    ensures Voters(TimeoutPoll(p, i, peers).counted, d, u)
            == if (d, u) == (i, p.ballots[i].currentTerm + 1) then {i} else Voters(p.counted, d, u)
  {
  }

  lemma TimeoutCounts(p: Poll, i: int, peers: set<int>)
    requires PollInv(p) && i in p.ballots
    ensures CountsRecorded(TimeoutPoll(p, i, peers))
  {
    hide MessagesRecorded, TalliesExact, LeadersBacked, Voters;
    var p' := TimeoutPoll(p, i, peers);
    NothingYet(p, i);
    TalliesAhead(p);
    forall c, t, v | v in Voters(p'.counted, c, t) ensures (v, t) in p'.votes && p'.votes[(v, t)] == c {
      TimeoutVoters(p, i, peers, c, t);
    }
  }

  lemma TalliesAhead(p: Poll)
    requires TalliesExact(p)
    ensures forall c <- p.ballots :: p.ballots[c].election.term <= p.ballots[c].currentTerm
  {
    assert forall c <- p.ballots :: TallyExact(p, c);
  }

  lemma TimeoutTallies(p: Poll, i: int, peers: set<int>)
    requires PollInv(p) && i in p.ballots && i !in peers
    ensures TalliesExact(TimeoutPoll(p, i, peers))
  {
    hide MessagesRecorded, VotesRecorded, LeadersBacked, Voters, CountsRecorded;
    var p' := TimeoutPoll(p, i, peers);
    forall c <- p'.ballots ensures TallyExact(p', c) {
      assert TallyExact(p, c) && TallyExact(p, i);
      TimeoutVoters(p, i, peers, c, p'.ballots[c].election.term);
    }
  }

  lemma TimeoutKeeps(p: Poll, i: int, peers: set<int>)
    requires PollInv(p) && i in p.ballots && i !in peers
    ensures PollInv(TimeoutPoll(p, i, peers))
  {
    hide CountsRecorded, TalliesExact, Voters;
    TimeoutCounts(p, i, peers);
    TimeoutTallies(p, i, peers);
    NothingYet(p, i);
    var p' := TimeoutPoll(p, i, peers);
    assert p'.ballots.Keys == p.ballots.Keys;
    assert |p'.ballots| == |p.ballots|;
    forall t, c | (t, c) in p.led ensures Voters(p'.counted, c, t) == Voters(p.counted, c, t) {
      TimeoutVoters(p, i, peers, c, t);
    }
  }

  // The poll after v, in its own term, votes for c and says so.
  function GrantedPoll(p: Poll, v: int, c: int): Poll
    requires v in p.ballots
  {
    var t := p.ballots[v].currentTerm;
    p.(ballots := p.ballots[v := p.ballots[v].(votedFor := c)],
    votes := p.votes[(v, t) := c], net := p.net + {VoteReply(c, v, t, t, true)})
  }

  // A vote that is open, or already c's.
  predicate MayGrant(p: Poll, v: int, c: int) {
    v in p.ballots && c in p.ballots && (p.ballots[v].votedFor == NONE || p.ballots[v].votedFor == c)
  }

  lemma GrantRecorded(p: Poll, v: int, c: int)
    requires NONE !in p.ballots && VotesRecorded(p) && MessagesRecorded(p) && MayGrant(p, v, c)
    ensures var t := p.ballots[v].currentTerm; (v, t) in p.votes ==> p.votes[(v, t)] == c
    ensures VotesRecorded(GrantedPoll(p, v, c)) && MessagesRecorded(GrantedPoll(p, v, c))
  {
  }

  lemma GrantCounts(p: Poll, v: int, c: int)
    requires PollInv(p) && MayGrant(p, v, c)
    ensures CountsRecorded(GrantedPoll(p, v, c))
  {
    hide TalliesExact, LeadersBacked;
    GrantRecorded(p, v, c);
  }

  lemma GrantKeeps(p: Poll, v: int, c: int)
    requires PollInv(p) && MayGrant(p, v, c)
    ensures PollInv(GrantedPoll(p, v, c))
  {
    hide VotesRecorded, MessagesRecorded, CountsRecorded;
    var p' := GrantedPoll(p, v, c);
    GrantRecorded(p, v, c);
    GrantCounts(p, v, c);
    assert p'.ballots.Keys == p.ballots.Keys;
    assert |p'.ballots| == |p.ballots|;
  }

  // What counting a granted vote does to the poll, before any win.
  function TalliedPoll(p: Poll, c: int, v: int): Poll
    requires c in p.ballots
  {
    var t := p.ballots[c].election.term;
    p.(ballots := p.ballots[c := TalliedBallot(p.ballots[c], v)],
    counted := p.counted[(c, t) := Voters(p.counted, c, t) + {v}])
  }

  lemma TallyCounts(p: Poll, c: int, v: int)
    requires PollInv(p) && c in p.ballots && v in p.ballots[c].election.pending
    requires (v, p.ballots[c].election.term) in p.votes && p.votes[(v, p.ballots[c].election.term)] == c
    ensures CountsRecorded(TalliedPoll(p, c, v)) && TalliesExact(TalliedPoll(p, c, v))
    ensures forall d, u :: |Voters(p.counted, d, u)| <= |Voters(TalliedPoll(p, c, v).counted, d, u)|
  {
    var t := p.ballots[c].election.term;
    var p' := TalliedPoll(p, c, v);
    assert TallyExact(p, c);
    assert v !in Voters(p.counted, c, t);
    assert Voters(p'.counted, c, t) == Voters(p.counted, c, t) + {v};
    forall d, u | d != c || u != t ensures Voters(p'.counted, d, u) == Voters(p.counted, d, u) {
    }
  }

  lemma TallyKeeps(p: Poll, c: int, v: int)
    requires PollInv(p) && c in p.ballots && v in p.ballots[c].election.pending
    requires (v, p.ballots[c].election.term) in p.votes && p.votes[(v, p.ballots[c].election.term)] == c
    ensures PollInv(TalliedPoll(p, c, v))
  {
    hide CountsRecorded, TalliesExact, Voters;
    TallyCounts(p, c, v);
    var p' := TalliedPoll(p, c, v);
    assert p'.ballots.Keys == p.ballots.Keys;
    assert |p'.ballots| == |p.ballots|;
  }

  // A candidate with a majority of counted votes may be recorded as leader of its term.
  lemma WinKeeps(p: Poll, c: int, p': Poll)
    requires PollInv(p) && c in p.ballots
    requires var e := p.ballots[c].election;
             && 0 < e.term == p.ballots[c].currentTerm && Winning(e.votes, |p.ballots|)
             && p' == p.(ballots := p.ballots[c := p.ballots[c].(role := Leader, election := e.(won := true))],
                         led := p.led + {(e.term, c)})
    ensures PollInv(p')
  {
    assert |p'.ballots| == |p.ballots| by { assert p'.ballots.Keys == p.ballots.Keys; }
  }

  ghost predicate Inv(w: World) {
    WellFormed(w) && PollInv(PollOf(w))
  }

  lemma PollOfNext(w: World, st: Step)
    requires Enabled(w, st)
    ensures var (p, p', i) := (PollOf(w), PollOf(Next(w, st)), Actor(st));
            && p'.ballots == p.ballots[i := NodeAfter(w.nodes[i], st).ballot]
            && p'.net == p.net + Sent(w.nodes[i], st)
            && p'.votes == VotesAfter(p.votes, i, w.nodes[i], st)
            && p'.counted == CountedAfter(p.counted, i, w.nodes[i], st)
  {
  }

  lemma PeerCount(w: World, i: int)
    requires WellFormed(w) && i in w.nodes
    ensures |w.nodes[i].peers| == |w.nodes| - 1 && |PollOf(w).ballots| == |w.nodes|
  {
    assert w.nodes.Keys == w.nodes[i].peers + {i};
    assert PollOf(w).ballots.Keys == w.nodes.Keys;
  }

  // Answering a vote request is catching up with its term, and then granting or refusing.
  lemma AnswerPolls(w: World, m: Message)
    requires WellFormed(w) && Enabled(w, Answer(m))
    ensures var n1 := Caught(w.nodes[m.to], m.term);
            var p1 := PollOf(w).(ballots := PollOf(w).ballots[m.to := n1.ballot]);
            if Grants(n1, m) then PollOf(Next(w, Answer(m))) == GrantedPoll(p1, m.to, m.cand)
            else PollOf(Next(w, Answer(m))) == p1.(net := p1.net + {VoteReply(m.cand, m.to, m.term, n1.currentTerm(), false)})
  {
    PollOfNext(w, Answer(m));
  }

  lemma AnswerKeeps(w: World, m: Message)
    requires Inv(w) && Enabled(w, Answer(m))
    ensures PollInv(PollOf(Next(w, Answer(m))))
  {
    hide VotesRecorded, CountsRecorded, TalliesExact, LeadersBacked, Next, GrantedPoll;
    var n1 := Caught(w.nodes[m.to], m.term);
    var p := PollOf(w);
    var p1 := p.(ballots := p.ballots[m.to := n1.ballot]);
    SteadyKeeps(p, p1);
    AnswerPolls(w, m);
    assert Recorded(p, m);
    if Grants(n1, m) {
      GrantKeeps(p1, m.to, m.cand);
    } else {
      SteadyKeeps(p1, PollOf(Next(w, Answer(m))));
    }
  }

  lemma CountTallies(w: World, m: Message)
    requires Inv(w) && Enabled(w, Count(m)) && m.granted
    ensures PollInv(TalliedPoll(PollOf(w), m.cand, m.voter))
    ensures 0 < PollOf(w).ballots[m.cand].election.term && 0 < PollOf(w).ballots[m.cand].election.votes
  {
    assert Recorded(PollOf(w), m);
    assert TallyExact(PollOf(w), m.cand);
    TallyKeeps(PollOf(w), m.cand, m.voter);
  }

  lemma CountWonKeeps(w: World, m: Message)
    requires Inv(w) && Enabled(w, Count(m)) && SafeCount(w, Count(m))
    requires WinsWith(w.nodes[m.cand], m.term, m.granted)
    ensures PollInv(PollOf(Next(w, Count(m))))
  {
    hide VotesRecorded, CountsRecorded, TalliesExact, LeadersBacked;
    CountTallies(w, m);
    PollOfNext(w, Count(m));
    PeerCount(w, m.cand);
    WinKeeps(TalliedPoll(PollOf(w), m.cand, m.voter), m.cand, PollOf(Next(w, Count(m))));
  }

  lemma CountGrantedKeeps(w: World, m: Message)
    requires Inv(w) && Enabled(w, Count(m)) && SafeCount(w, Count(m))
    requires m.term <= w.nodes[m.cand].ballot.election.term && m.granted
    ensures PollInv(PollOf(Next(w, Count(m))))
  {
    if WinsWith(w.nodes[m.cand], m.term, m.granted) {
      CountWonKeeps(w, m);
    } else {
      CountTallies(w, m);
      PollOfNext(w, Count(m));
      assert PollOf(Next(w, Count(m))) == TalliedPoll(PollOf(w), m.cand, m.voter);
    }
  }

  // All steps but a timeout, a vote and the counting of a granted vote.
  predicate Quiet(n: NodeState, st: Step) {
    !st.Timeout? && !st.Answer? && (st.Count? && st.m.VoteReply? ==> st.m.term > n.ballot.election.term || !st.m.granted)
  }

  lemma AppendSteady(n: NodeState, st: Step)
    requires Can(n, st) && (st.Deliver? || st.Ack?)
    ensures Steady(n.ballot, NodeAfter(n, st).ballot)
  {
    hide CommitTarget, Spliced;
  }

  lemma QuietSteady(n: NodeState, st: Step)
    requires Can(n, st) && Quiet(n, st)
    requires st.Count? ==> Harmless(n, st.m) && (n.Leads() ==> n.currentTerm() <= n.ballot.election.term)
    ensures Steady(n.ballot, NodeAfter(n, st).ballot)
  {
    hide AnswerAppend, CountAppend, Spliced, Appended, Reset, CommitTarget;
    if st.Deliver? || st.Ack? {
      AppendSteady(n, st);
    }
  }

  lemma ElectionBehind(w: World, c: int)
    requires Inv(w) && c in w.nodes
    ensures w.nodes[c].ballot.election.term <= w.nodes[c].currentTerm()
  {
    assert TallyExact(PollOf(w), c) && PollOf(w).ballots[c] == w.nodes[c].ballot;
  }

  // A leader leads the term of its last election.
  lemma LeaderInElection(w: World, c: int)
    requires Inv(w) && c in w.nodes
    ensures w.nodes[c].Leads() ==> w.nodes[c].currentTerm() <= w.nodes[c].ballot.election.term
  {
    hide VotesRecorded, MessagesRecorded, TalliesExact;
    var p := PollOf(w);
    if w.nodes[c].Leads() {
      assert p.ballots[c].role == Leader;
      assert (w.nodes[c].currentTerm(), c) in p.led;
    }
  }

  lemma QuietKeeps(w: World, st: Step)
    requires Inv(w) && Enabled(w, st) && SafeCount(w, st) && Quiet(w.nodes[Actor(st)], st)
    ensures PollInv(PollOf(Next(w, st)))
  {
    PollOfNext(w, st);
    LeaderInElection(w, Actor(st));
    QuietSteady(w.nodes[Actor(st)], st);
    assert forall m <- Sent(w.nodes[Actor(st)], st) :: Recorded(PollOf(w), m);
    SteadyKeeps(PollOf(w), PollOf(Next(w, st)));
  }

  lemma TimeoutIs(w: World, i: int)
    requires WellFormed(w) && Enabled(w, Timeout(i))
    ensures PollOf(Next(w, Timeout(i))) == TimeoutPoll(PollOf(w), i, w.nodes[i].peers)
  {
    PollOfNext(w, Timeout(i));
  }

  lemma NotQuiet(n: NodeState, st: Step)
    requires Can(n, st) && !Quiet(n, st) && !st.Timeout? && !st.Answer?
    ensures st.Count? && st.m.term <= n.ballot.election.term && st.m.granted
  {
  }

  lemma InvStep(w: World, st: Step)
    requires Inv(w) && Enabled(w, st) && SafeCount(w, st)
    ensures Inv(Next(w, st))
  {
    hide PollInv, NodeAfter, Quiet;
    WellFormedStep(w, st);
    if st.Timeout? {
      TimeoutIs(w, st.node);
      assert st == Timeout(st.node);
      TimeoutKeeps(PollOf(w), st.node, w.nodes[st.node].peers);
    } else if st.Answer? {
      AnswerKeeps(w, st.m);
      assert st == Answer(st.m);
    } else if Quiet(w.nodes[Actor(st)], st) {
      QuietKeeps(w, st);
    } else {
      NotQuiet(w.nodes[Actor(st)], st);
      assert st == Count(st.m);
      CountGrantedKeeps(w, st.m);
    }
  }

  lemma InvInit(w: World)
    requires Init(w)
    ensures Inv(w)
  {
  }

  lemma {:induction false} InvRun(run: seq<World>, steps: seq<Step>, k: int)
    requires IsRun(run, steps) && Init(run[0]) && SafeCounts(run, steps) && 0 <= k < |run|
    ensures Inv(run[k]) && run[k].nodes.Keys == run[0].nodes.Keys
  {
    if k == 0 {
      InvInit(run[0]);
    } else {
      InvRun(run, steps, k - 1);
      assert SafeCount(run[k - 1], steps[k - 1]);
      InvStep(run[k - 1], steps[k - 1]);
      WellFormedStep(run[k - 1], steps[k - 1]);
    }
  }

  // A cluster of an odd number of nodes, or of at most two: in these two winning sets of voters meet.
  predicate SafeSize(nodes: int) {
    nodes % 2 == 1 || nodes <= 2
  }

  lemma UniqueLeader(w: World, t: int, a: int, b: int)
    requires Inv(w) && SafeSize(|w.nodes|)
    requires (t, a) in w.past.led && (t, b) in w.past.led
    ensures a == b
  {
    var p := PollOf(w);
    assert p.ballots.Keys == w.nodes.Keys && |w.nodes.Keys| == |p.ballots| == |w.nodes|;
    var va, vb := Voters(p.counted, a, t), Voters(p.counted, b, t);
    assert forall v <- va :: (v, t) in p.votes && v in p.ballots;
    assert forall v <- vb :: (v, t) in p.votes && v in p.ballots;
    var v := BigSetsMeet(va, vb, w.nodes.Keys);
  }

  predicate LeadsIn(w: World, i: int, t: int) {
    i in w.nodes && w.nodes[i].Leads() && w.nodes[i].currentTerm() == t
  }

  /**
   Election safety (section 5.2 of the Raft paper), in any run in which vote replies are
   handled only where harmless, of a cluster of an odd number of nodes or of two: no term ever has two
   leaders, neither among all that were elected nor among those leading at one moment.
   */
  lemma AtMostOneLeaderPerTerm(run: seq<World>, steps: seq<Step>, k: int, a: int, b: int, t: int)
    requires IsRun(run, steps) && Init(run[0]) && SafeCounts(run, steps) && SafeSize(|run[0].nodes|)
    requires 0 <= k < |run|
    ensures (t, a) in run[k].past.led && (t, b) in run[k].past.led ==> a == b
    ensures LeadsIn(run[k], a, t) && LeadsIn(run[k], b, t) ==> a == b
  {
    var w := run[k];
    InvRun(run, steps, k);
    assert |w.nodes| == |run[0].nodes| by { assert w.nodes.Keys == run[0].nodes.Keys; }
    if (t, a) in w.past.led && (t, b) in w.past.led {
      UniqueLeader(w, t, a, b);
    }
    if LeadsIn(w, a, t) && LeadsIn(w, b, t) {
      assert PollOf(w).ballots[a].role == Leader && PollOf(w).ballots[b].role == Leader;
      UniqueLeader(w, t, a, b);
    }
  }

  /** No node ever grants its vote to two candidates of one term. */
  lemma OneVotePerTerm(run: seq<World>, steps: seq<Step>, k: int, m1: Message, m2: Message)
    requires IsRun(run, steps) && Init(run[0]) && SafeCounts(run, steps) && 0 <= k < |run|
    requires m1 in run[k].net && m1.VoteReply? && m1.granted
    requires m2 in run[k].net && m2.VoteReply? && m2.granted
    requires m1.voter == m2.voter && m1.asked == m2.asked
    ensures m1.cand == m2.cand
  {
    InvRun(run, steps, k);
    assert Recorded(PollOf(run[k]), m1) && Recorded(PollOf(run[k]), m2);
  }

  lemma HarmlessKeepsTerm(n: NodeState, m: Message)
    requires m.VoteReply? && Harmless(n, m)
    ensures CountVote(n, m.voter, m.term, m.granted).currentTerm() >= n.currentTerm()
  {
  }

  lemma TermsNeverDecrease(w: World, st: Step, i: int)
    requires Enabled(w, st) && SafeCount(w, st) && i in w.nodes
    ensures i in Next(w, st).nodes && Next(w, st).nodes[i].currentTerm() >= w.nodes[i].currentTerm()
  {
    if i == Actor(st) && !st.Count? && Quiet(w.nodes[i], st) {
      QuietSteady(w.nodes[i], st);
    } else if i == Actor(st) && st.Count? {
      HarmlessKeepsTerm(w.nodes[i], st.m);
    }
  }

  /** Over any run in which vote replies are handled only where they are harmless, no node's term ever goes back. */
  lemma {:induction false} TermsOnlyGrow(run: seq<World>, steps: seq<Step>, j: int, k: int, i: int)
    requires IsRun(run, steps) && SafeCounts(run, steps) && 0 <= j <= k < |run| && i in run[j].nodes
    ensures i in run[k].nodes && run[j].nodes[i].currentTerm() <= run[k].nodes[i].currentTerm()
    decreases k
  {
    hide Enabled, Next, SafeCount;
    if j < k {
      TermsOnlyGrow(run, steps, j, k - 1, i);
      TermsNeverDecrease(run[k - 1], steps[k - 1], i);
    }
  }

  /** Exactly when a returned vote request throws the node back to an earlier term. */
  lemma CountingLowersTermIff(n: NodeState, p: int, term: int, granted: bool)
    ensures CountVote(n, p, term, granted).currentTerm() < n.currentTerm()
            <==> n.ballot.election.term < term < n.currentTerm()
  {
  }

  lemma SubsetOfSize<T>(s: set<T>, k: int) returns (a: set<T>)
    requires 0 <= k <= |s|
    ensures a <= s && |a| == k
    decreases k
  {
    if k == 0 {
      a := {};
    } else {
      var x := SomeMember(s);
      var b := SubsetOfSize(s - {x}, k - 1);
      a := b + {x};
    }
  }

  /** Any two winning sets of voters share a node if and only if the cluster is odd or has at most two nodes. */
  lemma WinningSetsMeetIff<T>(nodes: set<T>)
    requires nodes != {}
    ensures (forall a, b | a <= nodes && b <= nodes && Winning(|a|, |nodes|) && Winning(|b|, |nodes|) :: a * b != {})
            <==> SafeSize(|nodes|)
  {
    if SafeSize(|nodes|) {
      forall a, b | a <= nodes && b <= nodes && Winning(|a|, |nodes|) && Winning(|b|, |nodes|)
        ensures a * b != {}
      {
        var x := BigSetsMeet(a, b, nodes);
        assert x in a * b;
      }
    } else {
      var a := SubsetOfSize(nodes, |nodes| / 2);
      var b := nodes - a;
      assert |a + b| == |a| + |b| && a + b == nodes;
      assert a * b == {};
    }
  }
}
