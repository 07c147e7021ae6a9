/** One Raft node (internal/raft/node.go): its state, and what each handler does to it. */
module RaftNodes {
  import opened Basics
  import opened GroupFsm
  import opened RaftLogs

  datatype Role = Follower | Candidate | Leader

  // votedFor when no vote was cast in the current term
  const NONE := -1

  // The local variables of one running election.  pending holds the peers whose
  // vote request has not returned.
  datatype Election = Election(term: int, pending: set<int>, votes: int, won: bool)

  // The part of a node that elections are about.
  datatype Ballot = Ballot(role: Role, currentTerm: int, votedFor: int, election: Election)

  datatype NodeState = NodeState(
    id: int, peers: set<int>, ballot: Ballot, leaderId: int,
    log: Log, commitIndex: int, lastApplied: int, groups: Groups,
    nextIndex: map<int, int>, matchIndex: map<int, int>, proposals: Log)
  {
    function currentTerm(): int { ballot.currentTerm }

    predicate Leads() { ballot.role == Leader }
  }

  datatype Message =
    | VoteRequest(cand: int, to: int, term: int, lastLogIndex: int, lastLogTerm: int)
    // asked: the term of the request this answers
    | VoteReply(cand: int, voter: int, asked: int, term: int, granted: bool)
    | AppendRequest(leader: int, to: int, term: int, prevIndex: int, prevTerm: int, entries: Log, commit: int)
    // sent: how many entries the request this answers carried
    | AppendReply(leader: int, follower: int, sent: int, term: int, success: bool)

  const PROPOSE_CAPACITY := 256

  function Lookup(m: map<int, int>, k: int): int {
    if k in m then m[k] else 0
  }

  // m, with every key of ps set to v
  function Reset(m: map<int, int>, ps: set<int>, v: int): map<int, int> {
    m + map p | p in ps :: v
  }

  lemma ResetOneMore(m: map<int, int>, ps: set<int>, p: int, v: int)
    ensures Reset(m, ps, v)[p := v] == Reset(m, ps + {p}, v)
  {
  }

  function Majority(n: NodeState): int {
    |n.peers| / 2 + 1
  }

  function FollowerBallot(b: Ballot, term: int): Ballot {
    b.(currentTerm := term, role := Follower, votedFor := NONE)
  }

  function BecomeFollower(n: NodeState, term: int): NodeState {
    n.(ballot := FollowerBallot(n.ballot, term))
  }

  function BecomeLeader(n: NodeState): NodeState {
    n.(ballot := n.ballot.(role := Leader), leaderId := n.id,
    nextIndex := Reset(n.nextIndex, n.peers, |n.log|),
    matchIndex := Reset(n.matchIndex, n.peers, 0))
  }

  function CandidateBallot(id: int, peers: set<int>, b: Ballot): Ballot {
    var term := b.currentTerm + 1;
    Ballot(Candidate, term, id, Election(term, peers, 1, false))
  }

  function BeginElection(n: NodeState): NodeState {
    n.(ballot := CandidateBallot(n.id, n.peers, n.ballot))
  }

  function AskVote(n: NodeState, p: int): Message
    requires n.log != []
  {
    VoteRequest(n.id, p, n.ballot.election.term, |n.log| - 1, LastTermOf(n.log))
  }

  // The candidate's log is at least as complete as this one: later last term,
  // or the same last term and no shorter.
  predicate UpToDate(lastLogIndex: int, lastLogTerm: int, log: Log)
    requires log != []
  {
    lastLogTerm > LastTermOf(log) || (lastLogTerm == LastTermOf(log) && lastLogIndex >= |log| - 1)
  }

  // Of two logs one is always up to date for the other; both are only if they end in the same term at the same index.
  lemma UpToDateIsTotal(a: Log, b: Log)
    requires a != [] && b != []
    ensures UpToDate(|a| - 1, LastTermOf(a), b) || UpToDate(|b| - 1, LastTermOf(b), a)
    ensures UpToDate(|a| - 1, LastTermOf(a), b) && UpToDate(|b| - 1, LastTermOf(b), a)
            <==> LastTermOf(a) == LastTermOf(b) && |a| == |b|
  {
  }

  lemma UpToDateIsTransitive(a: Log, b: Log, c: Log)
    requires a != [] && b != [] && c != []
    requires UpToDate(|a| - 1, LastTermOf(a), b) && UpToDate(|b| - 1, LastTermOf(b), c)
    ensures UpToDate(|a| - 1, LastTermOf(a), c)
  {
  }

  function Caught(n: NodeState, term: int): NodeState {
    if term > n.currentTerm() then BecomeFollower(n, term) else n
  }

  predicate Grants(n: NodeState, m: Message)
    requires m.VoteRequest? && n.log != []
  {
    && m.term >= n.currentTerm()
    && (n.ballot.votedFor == NONE || n.ballot.votedFor == m.cand)
    && UpToDate(m.lastLogIndex, m.lastLogTerm, n.log)
  }

  function AnswerVote(n: NodeState, m: Message): (NodeState, Message)
    requires m.VoteRequest? && n.log != []
  {
    var n1 := Caught(n, m.term);
    (if Grants(n1, m) then n1.(ballot := n1.ballot.(votedFor := m.cand)) else n1,
    VoteReply(m.cand, n.id, m.term, n1.currentTerm(), Grants(n1, m)))
  }

  function DropBallot(b: Ballot, p: int): Ballot {
    b.(election := b.election.(pending := b.election.pending - {p}))
  }

  function DropVote(n: NodeState, p: int): NodeState {
    n.(ballot := DropBallot(n.ballot, p))
  }

  function TalliedBallot(b: Ballot, p: int): Ballot {
    b.(election := b.election.(pending := b.election.pending - {p}, votes := b.election.votes + 1))
  }

  // This vote gives the candidate the majority for the first time.
  predicate WinsWith(n: NodeState, term: int, granted: bool) {
    && term <= n.ballot.election.term && granted && !n.ballot.election.won
    && n.ballot.election.votes + 1 >= Majority(n)
  }

  function CountVote(n: NodeState, p: int, term: int, granted: bool): NodeState {
    if term > n.ballot.election.term then BecomeFollower(DropVote(n, p), term)
    else if granted then
      var b := TalliedBallot(n.ballot, p);
      if WinsWith(n, term, granted) then BecomeLeader(n.(ballot := b.(election := b.election.(won := true))))
      else n.(ballot := b)
    else DropVote(n, p)
  }

  function Propose(n: NodeState, c: Command): NodeState {
    n.(proposals := n.proposals + [LogEntry(n.currentTerm(), 0, c)])
  }

  function TakeProposal(n: NodeState): NodeState
    requires n.proposals != []
  {
    var n1 := n.(proposals := n.proposals[1..]);
    if n.Leads() then n1.(log := Appended(n.log, n.proposals[0])) else n1
  }

  // What the leader would send next is inside its log or just past its end.
  predicate CanSend(n: NodeState, p: int) {
    p in n.nextIndex && 1 <= n.nextIndex[p] <= |n.log|
  }

  function SnapshotFor(n: NodeState, p: int): Message
    requires Lookup(n.nextIndex, p) >= 0
  {
    var next := Lookup(n.nextIndex, p);
    var prev := next - 1;
    AppendRequest(n.id, p, n.currentTerm(), prev,
                  if 0 <= prev < |n.log| then n.log[prev].term else ZERO_ENTRY.term,
                  if next < |n.log| then n.log[next..] else [],
                  n.commitIndex)
  }

  /** A new leader begins with empty requests that name its own last entry: heartbeats that announce it. */
  lemma FirstRequestIsEmpty(n: NodeState, p: int)
    requires p in n.peers && n.log != []
    ensures var m := SnapshotFor(BecomeLeader(n), p);
            m == AppendRequest(n.id, p, n.currentTerm(), |n.log| - 1, LastTermOf(n.log), [], n.commitIndex)
  {
  }

  // A request names the entry before the ones it carries, which are all from there to the end of the log.
  lemma RequestIsSlice(n: NodeState, p: int)
    requires CanSend(n, p)
    ensures var m := SnapshotFor(n, p);
            && n.log == n.log[..m.prevIndex] + [n.log[m.prevIndex]] + m.entries && m.prevTerm == n.log[m.prevIndex].term
            && m.prevIndex + 1 == n.nextIndex[p] && m.term == n.currentTerm() && m.commit == n.commitIndex
  {
    var prev := n.nextIndex[p] - 1;
    assert n.log[..prev] + [n.log[prev]] == n.log[..prev + 1];
    assert prev + 1 == |n.log| ==> n.log[prev + 1..] == [];
  }

  function Min(a: int, b: int): int { if a < b then a else b }

  // m is rejected for an old term, or for reaching past the end of the log.
  predicate Accepts(n: NodeState, m: Message)
    requires m.AppendRequest?
  {
    m.term >= n.currentTerm() && m.prevIndex < |n.log|
  }

  function AnswerAppend(n: NodeState, m: Message): (NodeState, Message)
    requires m.AppendRequest? && m.prevIndex >= -1
  {
    var reply := AppendReply(m.leader, n.id, |m.entries|, n.currentTerm(), Accepts(n, m));
    if m.term < n.currentTerm() then (n, reply)
    else
      var n1 := Caught(n, m.term).(leaderId := m.leader);
      if !Accepts(n, m) then (n1, reply)
      else
        var log := Spliced(n.log, m.prevIndex, m.entries);
        (n1.(log := log,
        commitIndex := if m.commit > n.commitIndex then Min(m.commit, |log| - 1) else n.commitIndex), reply)
  }

  function CountAppend(n: NodeState, p: int, sent: int, term: int, success: bool): NodeState {
    if term > n.currentTerm() then BecomeFollower(n, term)
    else if success && sent > 0 then
      MaybeCommit(n.(nextIndex := n.nextIndex[p := |n.log|], matchIndex := n.matchIndex[p := |n.log| - 1]))
    else if !success && Lookup(n.nextIndex, p) > 1 then
      n.(nextIndex := n.nextIndex[p := Lookup(n.nextIndex, p) - 1])
    else n
  }

  // The peers believed to hold the log through idx.
  function Matching(n: NodeState, idx: int): set<int> {
    AtLeast(n.matchIndex, n.matchIndex.Keys, idx)
  }

  function AtLeast(m: map<int, int>, ps: set<int>, idx: int): set<int> {
    set p | p in m && p in ps && m[p] >= idx
  }

  lemma AtLeastOneMore(m: map<int, int>, ps: set<int>, p: int, idx: int)
    requires p in m && p !in ps
    ensures |AtLeast(m, ps + {p}, idx)| == |AtLeast(m, ps, idx)| + if m[p] >= idx then 1 else 0
  {
    assert AtLeast(m, ps + {p}, idx) == AtLeast(m, ps, idx) + if m[p] >= idx then {p} else {};
  }

  predicate Committable(n: NodeState, idx: int) {
    && 0 <= idx < |n.log|
    && n.log[idx].term == n.currentTerm()
    && 1 + |Matching(n, idx)| >= Majority(n)
  }

  // c is the greatest committable index above the commit index, or the commit index if there is none.
  ghost predicate IsCommitTarget(n: NodeState, c: int) {
    && (c == n.commitIndex || (c > n.commitIndex && Committable(n, c)))
    && (forall i | i > n.commitIndex && Committable(n, i) :: i <= c)
  }

  function CommitTarget(n: NodeState, idx: int): int
    decreases idx - n.commitIndex
  {
    if idx <= n.commitIndex then n.commitIndex
    else if Committable(n, idx) then idx
    else CommitTarget(n, idx - 1)
  }

  // An index of the log whose entry has the node's term and that the node and enough peers have: half of all at least.
  ghost predicate HeldByHalf(n: NodeState, idx: int) {
    && 0 <= idx < |n.log| && n.log[idx].term == n.currentTerm()
    && 2 * (1 + |set p | p in n.matchIndex && n.matchIndex[p] >= idx|) >= 1 + |n.peers|
  }

  lemma CommittableIff(n: NodeState, idx: int)
    ensures Committable(n, idx) <==> HeldByHalf(n, idx)
  {
    assert Matching(n, idx) == set p | p in n.matchIndex && n.matchIndex[p] >= idx;
  }

  /** The new commit index is the greatest index above the old one that half of the nodes have, if there is one. */
  lemma CommitIsGreatestHeld(n: NodeState, c: int)
    ensures c == MaybeCommit(n).commitIndex
            <==> && (forall idx :: idx > n.commitIndex && HeldByHalf(n, idx) ==> idx <= c)
                 && (c == n.commitIndex || (c > n.commitIndex && HeldByHalf(n, c)))
  {
    hide HeldByHalf, Committable, MaybeCommit;
    forall idx ensures Committable(n, idx) <==> HeldByHalf(n, idx) {
      CommittableIff(n, idx);
    }
    MaybeCommitIsGreatest(n, c);
  }

  function MaybeCommit(n: NodeState): NodeState {
    n.(commitIndex := CommitTarget(n, |n.log| - 1))
  }

  lemma {:induction false} CommitTargetBelow(n: NodeState, idx: int)
    ensures var c := CommitTarget(n, idx);
            && (c == n.commitIndex || (n.commitIndex < c <= idx && Committable(n, c)))
            && (forall i | n.commitIndex < i <= idx && Committable(n, i) :: i <= c)
    decreases idx - n.commitIndex
  {
    if idx > n.commitIndex && !Committable(n, idx) {
      CommitTargetBelow(n, idx - 1);
    }
  }

  /** The commit index moves to the greatest committable index, and only forward. */
  lemma MaybeCommitIsGreatest(n: NodeState, c: int)
    ensures IsCommitTarget(n, c) <==> c == MaybeCommit(n).commitIndex
  {
    CommitTargetBelow(n, |n.log| - 1);
  }

  // What each handler leaves alone.
  lemma AnswerVoteKeeps(n: NodeState, m: Message)
    requires m.VoteRequest? && n.log != []
    ensures AnswerVote(n, m).0 == n.(ballot := AnswerVote(n, m).0.ballot) && AnswerVote(n, m).1.VoteReply?
    ensures AnswerVote(n, m).0.Leads() ==> n.Leads() && AnswerVote(n, m).0.currentTerm() == n.currentTerm()
  {
    hide Grants;
  }

  lemma CountVoteKeeps(n: NodeState, p: int, term: int, granted: bool)
    ensures var n' := CountVote(n, p, term, granted);
            n' == n.(ballot := n'.ballot, leaderId := n'.leaderId, nextIndex := n'.nextIndex, matchIndex := n'.matchIndex)
  {
    hide WinsWith, Reset;
  }

  lemma AnswerAppendKeeps(n: NodeState, m: Message)
    requires m.AppendRequest? && m.prevIndex >= -1
    ensures var n' := AnswerAppend(n, m).0;
            n' == n.(ballot := n'.ballot, leaderId := n'.leaderId, log := n'.log, commitIndex := n'.commitIndex)
    ensures AnswerAppend(n, m).0.ballot.election == n.ballot.election && AnswerAppend(n, m).1.AppendReply?
    ensures AnswerAppend(n, m).0.Leads() ==> n.Leads() && AnswerAppend(n, m).0.currentTerm() == n.currentTerm()
  {
    hide Accepts, Spliced;
  }

  lemma CountAppendKeeps(n: NodeState, p: int, sent: int, term: int, success: bool)
    ensures var n' := CountAppend(n, p, sent, term, success);
            n' == n.(ballot := n'.ballot, commitIndex := n'.commitIndex, nextIndex := n'.nextIndex, matchIndex := n'.matchIndex)
  {
    hide CommitTarget;
  }

  function ApplyNext(n: NodeState): NodeState {
    if n.lastApplied < n.commitIndex then
      var i := n.lastApplied + 1;
      n.(lastApplied := i, groups := if 0 <= i < |n.log| then ApplyCommand(n.groups, n.log[i].command) else n.groups)
    else n
  }

  function InitialNode(id: int, peers: set<int>): NodeState {
    NodeState(id, peers, Ballot(Follower, 0, NONE, Election(0, {}, 0, false)), 0, [SENTINEL], 0, 0, map[], map[], map[], [])
  }

  class Node {
    const id: int
    const peers: set<int>
    var role: Role
    var currentTerm: int
    var votedFor: int
    var leaderId: int
    const log: RaftLog
    var commitIndex: int
    var lastApplied: int
    const fsm: GroupState
    var nextIndex: map<int, int>
    var matchIndex: map<int, int>
    var election: Election
    var proposals: Log

    ghost predicate Valid()
      reads this, log, fsm, fsm.groups.Values
    {
      fsm.Valid() && log.entries != []
    }

    ghost function State(): NodeState
      reads this, log, fsm, fsm.groups.Values
    {
      NodeState(id, peers, Ballot(role, currentTerm, votedFor, election), leaderId, log.entries,
                commitIndex, lastApplied, fsm.Contents(), nextIndex, matchIndex, proposals)
    }

    constructor (id: int, peers: set<int>)
      ensures Valid() && State() == InitialNode(id, peers)
      ensures fresh(log) && fresh(fsm) && fsm.groups == map[]
    {
      this.id, this.peers := id, peers;
      role, currentTerm, votedFor, leaderId := Follower, 0, NONE, 0;
      log := new RaftLog();
      commitIndex, lastApplied := 0, 0;
      fsm := new GroupState();
      nextIndex, matchIndex := map[], map[];
      election := Election(0, {}, 0, false);
      proposals := [];
    }

    method becomeFollower(term: int)
      modifies this
      ensures State() == BecomeFollower(old(State()), term)
    {
      currentTerm := term;
      role := Follower;
      votedFor := NONE;
    }

    method becomeLeader()
      modifies this
      ensures State() == BecomeLeader(old(State()))
      // in values: nothing is known of the peers, and the log is taken to be all there
      ensures role == Leader && leaderId == id && currentTerm == old(currentTerm)
      ensures forall p <- peers :: p in nextIndex && nextIndex[p] == |log.entries| && p in matchIndex && matchIndex[p] == 0
    {
      hide GroupState.Contents;
      role := Leader;
      leaderId := id;
      var last := log.LastIndex();
      resetProgress(last);
      assert fsm.Contents() == old(fsm.Contents());
    }

    method resetProgress(last: int)
      modifies this`nextIndex, this`matchIndex
      ensures nextIndex == Reset(old(nextIndex), peers, last + 1)
      ensures matchIndex == Reset(old(matchIndex), peers, 0)
    {
      var todo: set<int> := peers;
      while todo != {}
        invariant todo <= peers
        invariant nextIndex == Reset(old(nextIndex), peers - todo, last + 1)
        invariant matchIndex == Reset(old(matchIndex), peers - todo, 0)
        decreases todo
      {
        var p := AnyOf(todo);
        ResetOneMore(old(nextIndex), peers - todo, p, last + 1);
        ResetOneMore(old(matchIndex), peers - todo, p, 0);
        nextIndex := nextIndex[p := last + 1];
        matchIndex := matchIndex[p := 0];
        assert peers - todo + {p} == peers - (todo - {p});
        todo := todo - {p};
      }
      assert peers - todo == peers;
    }

    // startElection, before any request is sent
    method startElection()
      modifies this
      ensures State() == BeginElection(old(State()))
      ensures currentTerm == old(currentTerm) + 1 && role == Candidate && votedFor == id
      ensures election == Election(currentTerm, peers, 1, false)
    {
      hide GroupState.Contents;
      currentTerm := currentTerm + 1;
      role := Candidate;
      votedFor := id;
      election := Election(currentTerm, peers, 1, false);
    }

    // startElection, one returned vote request
    method voteReturned(p: int, term: int, granted: bool)
      modifies this
      ensures State() == CountVote(old(State()), p, term, granted)
      // in values: a vote of no newer term is counted, and the first time the count, with its own vote, is at least
      // half of all nodes makes a leader
      ensures var e, counts := old(election), granted && term <= old(election).term;
              election == Election(e.term, e.pending - {p}, if counts then e.votes + 1 else e.votes,
                                   e.won || (counts && 2 * (e.votes + 1) >= 1 + |peers|))
      ensures currentTerm == if term > old(election).term then term else old(currentTerm)
      ensures role == if term > old(election).term then Follower
                      else if election.won && !old(election).won then Leader else old(role)
    {
      hide GroupState.Contents, Reset;
      election := election.(pending := election.pending - {p});
      assert fsm.Contents() == old(fsm.Contents());
      if term > election.term {
        becomeFollower(term);
      } else if granted {
        election := election.(votes := election.votes + 1);
        if !election.won && election.votes >= |peers| / 2 + 1 {
          election := election.(won := true);
          becomeLeader();
        }
      }
    }

    method RequestVote(m: Message) returns (reply: Message)
      requires m.VoteRequest? && Valid()
      modifies this
      ensures (State(), reply) == AnswerVote(old(State()), m)
      // in values: the term is caught up with; the vote goes to a candidate of no older term that is the first to ask,
      // or asks again, unless the voter's last entry has a later term, or the same and a greater index
      ensures currentTerm == reply.term == if m.term > old(currentTerm) then m.term else old(currentTerm)
      ensures reply.granted
              <==> && m.term >= old(currentTerm)
                   && (m.term > old(currentTerm) || old(votedFor) == NONE || old(votedFor) == m.cand)
                   && var last := log.entries[|log.entries| - 1].term;
                      !(last > m.lastLogTerm || (last == m.lastLogTerm && |log.entries| - 1 > m.lastLogIndex))
      ensures votedFor == if reply.granted then m.cand else if m.term > old(currentTerm) then NONE else old(votedFor)
    {
      hide GroupState.Contents;
      if m.term > currentTerm {
        becomeFollower(m.term);
      }
      var lastIdx := log.LastIndex();
      var lastTerm := log.LastTerm();
      var grant := m.term >= currentTerm && (votedFor == NONE || votedFor == m.cand)
                   && (m.lastLogTerm > lastTerm || (m.lastLogTerm == lastTerm && m.lastLogIndex >= lastIdx));
      if grant {
        votedFor := m.cand;
      }
      assert fsm.Contents() == old(fsm.Contents());
      reply := VoteReply(m.cand, id, m.term, currentTerm, grant);
    }

    method propose(c: Command)
      modifies this
      ensures State() == Propose(old(State()), c)
    {
      proposals := proposals + [LogEntry(currentTerm, 0, c)];
    }

    // the propose branch of electionLoop
    method takeProposal()
      requires proposals != []
      modifies this, log
      ensures State() == TakeProposal(old(State()))
      ensures old(proposals) == [old(proposals)[0]] + proposals
      ensures log.entries == if role == Leader then old(log.entries) + [old(proposals)[0].(index := |old(log.entries)|)]
                             else old(log.entries)
    {
      var e := proposals[0];
      proposals := proposals[1..];
      if role == Leader {
        log.Append(e);
      }
    }

    // replicateToPeer, up to the call
    method snapshotFor(p: int) returns (m: Message)
      requires Lookup(nextIndex, p) >= 0
      ensures m == SnapshotFor(State(), p)
    {
      var next := if p in nextIndex then nextIndex[p] else 0;
      var prevEntry, _ := log.Entry(next - 1);
      var es := log.EntriesFrom(next);
      m := AppendRequest(id, p, currentTerm, next - 1, prevEntry.term, es, commitIndex);
    }

    method AppendEntries(m: Message) returns (reply: Message)
      requires m.AppendRequest? && m.prevIndex >= -1
      modifies this, log
      ensures (State(), reply) == AnswerAppend(old(State()), m)
      // in values: the reply still names the term from before; a request of that term or a newer one is followed, and
      // accepted if its entries leave no gap in the log
      ensures reply == AppendReply(m.leader, id, |m.entries|, old(currentTerm),
                                   m.term >= old(currentTerm) && m.prevIndex < |old(log.entries)|)
      ensures m.term <= old(currentTerm) ==> (currentTerm, role, votedFor) == old((currentTerm, role, votedFor))
      ensures m.term > old(currentTerm) ==> (currentTerm, role, votedFor) == (m.term, Follower, NONE)
      ensures leaderId == if m.term >= old(currentTerm) then m.leader else old(leaderId)
      ensures !reply.success ==> log.entries == old(log.entries) && commitIndex == old(commitIndex)
      ensures reply.success ==> IsSplice(log.entries, old(log.entries), m.prevIndex, m.entries)
      ensures reply.success ==>
                commitIndex == if m.commit > old(commitIndex) then Min(m.commit, |log.entries| - 1) else old(commitIndex)
    {
      hide GroupState.Contents, Spliced;
      var term := currentTerm;
      if m.term < term {
        return AppendReply(m.leader, id, |m.entries|, term, false);
      }
      if m.term > term {
        becomeFollower(m.term);
      }
      leaderId := m.leader;
      var ok := log.AppendEntries(m.prevIndex, m.entries);
      if ok {
        followCommit(m.commit);
      }
      assert fsm.Contents() == old(fsm.Contents());
      return AppendReply(m.leader, id, |m.entries|, term, ok);
    }

    // The greatest index that the leader has committed and the log reaches, but never back.
    method followCommit(leaderCommit: int)
      modifies this`commitIndex
      ensures leaderCommit <= old(commitIndex) ==> commitIndex == old(commitIndex)
      ensures leaderCommit > old(commitIndex) ==>
                && commitIndex <= leaderCommit && commitIndex < |log.entries|
                && (commitIndex == leaderCommit || commitIndex == |log.entries| - 1)
      ensures commitIndex == if leaderCommit > old(commitIndex) then Min(leaderCommit, |log.entries| - 1)
                             else old(commitIndex)
    {
      if leaderCommit > commitIndex {
        var newCommit := leaderCommit;
        var last := log.LastIndex();
        if last < newCommit {
          newCommit := last;
        }
        commitIndex := newCommit;
      }
    }

    // replicateToPeer, after the call returned
    method appendReturned(p: int, sent: int, term: int, success: bool)
      modifies this
      ensures State() == CountAppend(old(State()), p, sent, term, success)
      // in values: a newer term deposes; a success that carried entries marks the whole log of now as held, a refusal
      // moves one back, but not below 1; the other peers stay as they are
      ensures term > old(currentTerm) ==>
                (currentTerm, role, votedFor, nextIndex, matchIndex) == (term, Follower, NONE, old(nextIndex), old(matchIndex))
      ensures term <= old(currentTerm) ==> (currentTerm, role, votedFor) == old((currentTerm, role, votedFor))
      ensures term <= old(currentTerm) && success && sent > 0 ==>
                nextIndex == old(nextIndex)[p := |log.entries|] && matchIndex == old(matchIndex)[p := |log.entries| - 1]
      ensures term <= old(currentTerm) && !(success && sent > 0) ==>
                matchIndex == old(matchIndex)
                && nextIndex == if !success && p in old(nextIndex) && old(nextIndex)[p] > 1
                                then old(nextIndex)[p := old(nextIndex)[p] - 1] else old(nextIndex)
    {
      hide GroupState.Contents, CommitTarget;
      if term > currentTerm {
        becomeFollower(term);
      } else if success && sent > 0 {
        var last := log.LastIndex();
        nextIndex := nextIndex[p := last + 1];
        matchIndex := matchIndex[p := last];
        maybeCommit();
      } else if !success {
        if p in nextIndex && nextIndex[p] > 1 {
          nextIndex := nextIndex[p := nextIndex[p] - 1];
        }
      }
    }

    method countMatching(idx: int) returns (count: int)
      ensures count == 1 + |Matching(State(), idx)|
    {
      count := 1;
      var todo: set<int> := matchIndex.Keys;
      while todo != {}
        invariant todo <= matchIndex.Keys
        invariant count == 1 + |AtLeast(matchIndex, matchIndex.Keys - todo, idx)|
        decreases todo
      {
        var p := AnyOf(todo);
        AtLeastOneMore(matchIndex, matchIndex.Keys - todo, p, idx);
        assert matchIndex.Keys - todo + {p} == matchIndex.Keys - (todo - {p});
        if matchIndex[p] >= idx {
          count := count + 1;
        }
        todo := todo - {p};
      }
      assert matchIndex.Keys - todo == matchIndex.Keys;
    }

    method canCommit(idx: int) returns (yes: bool)
      ensures yes <==> Committable(State(), idx)
      ensures yes <==> HeldByHalf(State(), idx)
    {
      var entry, ok := log.Entry(idx);
      if !ok || entry.term != currentTerm {
        return false;
      }
      var count := countMatching(idx);
      CommittableIff(State(), idx);
      return count >= |peers| / 2 + 1;
    }

    /** Both loops together find the greatest committable index. */
    method maybeCommit()
      modifies this`commitIndex
      ensures commitIndex == old(commitIndex) || (commitIndex > old(commitIndex) && HeldByHalf(old(State()), commitIndex))
      ensures forall idx :: idx > old(commitIndex) && HeldByHalf(old(State()), idx) ==> idx <= commitIndex
      ensures State() == MaybeCommit(old(State()))
    {
      hide HeldByHalf, GroupState.Contents;
      ghost var before := State();
      var last := log.LastIndex();
      var idx := last;
      while idx > commitIndex
        invariant idx <= last
        invariant unchanged(this)
        invariant forall i | i > commitIndex && i > idx :: !Committable(before, i)
      {
        var yes := canCommit(idx);
        if yes {
          commitIndex := idx;
          break;
        }
        idx := idx - 1;
      }
      assert fsm.Contents() == old(fsm.Contents());
      MaybeCommitIsGreatest(before, commitIndex);
      CommitIsGreatestHeld(before, commitIndex);
    }

    // one round of applyLoop
    method applyNext()
      requires Valid()
      modifies this, fsm, fsm.groups.Values
      ensures Valid() && State() == ApplyNext(old(State()))
    {
      if lastApplied < commitIndex {
        lastApplied := lastApplied + 1;
        var entry, ok := log.Entry(lastApplied);
        if ok {
          fsm.Apply(entry.command);
        }
      }
    }
  }
}
