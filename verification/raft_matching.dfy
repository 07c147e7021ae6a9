/** Log matching: two logs with an entry of the same index and term are the same through that entry. */
module LogMatching {
  import opened RaftLogs
  import opened RaftNodes
  import opened RaftSystem
  import opened ElectionSafety

  type TermLogs = map<int, Log>

  // Through each of its entries, the log is a copy of the log of the leader of that entry's term.
  ghost predicate Rooted(log: Log, terms: TermLogs) {
    forall i :: 0 <= i < |log| ==> EntryRooted(log, i, terms)
  }

  ghost predicate EntryRooted(log: Log, i: int, terms: TermLogs)
    requires 0 <= i < |log|
  {
    log[i].term in terms && Agree(log, terms[log[i].term], i + 1)
  }

  ghost predicate TermLogsRooted(terms: TermLogs) {
    && 0 in terms && terms[0] == [SENTINEL]
    && forall t <- terms :: WellIndexed(terms[t]) && Rooted(terms[t], terms)
  }

  lemma RootedShorter(log: Log, terms: TermLogs, k: int)
    requires Rooted(log, terms) && 0 <= k <= |log|
    ensures Rooted(log[..k], terms)
  {
    forall i | 0 <= i < k ensures EntryRooted(log[..k], i, terms) {
      assert EntryRooted(log, i, terms);
      assert log[..k][..i + 1] == log[..i + 1];
    }
  }

  // A term's log may grow, and the log of a term no entry has yet may be anything.
  lemma RootedLater(log: Log, terms: TermLogs, t: int, longer: Log)
    requires Rooted(log, terms)
    requires t in terms ==> terms[t] <= longer
    ensures Rooted(log, terms[t := longer])
  {
    var later := terms[t := longer];
    forall i | 0 <= i < |log| ensures EntryRooted(log, i, later) {
      assert EntryRooted(log, i, terms);
      if log[i].term == t {
        assert longer[..i + 1] == terms[t][..i + 1];
      }
    }
  }

  lemma RootedAppended(log: Log, terms: TermLogs, t: int, e: LogEntry)
    requires t in terms && log == terms[t] && Rooted(log, terms) && e.term == t
    ensures Rooted(Appended(log, e), terms[t := Appended(log, e)])
  {
    var longer := Appended(log, e);
    RootedLater(log, terms, t, longer);
    var later := terms[t := longer];
    forall i | 0 <= i < |longer| ensures EntryRooted(longer, i, later) {
      if i < |log| {
        assert EntryRooted(log, i, later);
        assert longer[..i + 1] == log[..i + 1];
      }
    }
  }

  /** Two rooted logs whose entries at one index have the same term agree through that index. */
  lemma SameTermAgree(a: Log, b: Log, i: int, terms: TermLogs)
    requires Rooted(a, terms) && Rooted(b, terms)
    requires 0 <= i < |a| && i < |b| && a[i].term == b[i].term
    ensures Agree(a, b, i + 1)
  {
    assert EntryRooted(a, i, terms) && EntryRooted(b, i, terms);
  }

  /**
   When exactly the append handler copies the leader's log: its check of prevIndex alone is
   not enough, the receiver must also have the leader's term there.
   */
  lemma SpliceCopiesIff(log: Log, source: Log, prevIndex: int, to: int, terms: TermLogs)
    requires Rooted(log, terms) && Rooted(source, terms) && WellIndexed(source)
    requires 0 <= prevIndex < |log| && prevIndex < to <= |source|
    ensures Spliced(log, prevIndex, source[prevIndex + 1..to]) == source[..to]
            <==> log[prevIndex].term == source[prevIndex].term
  {
    if log[prevIndex].term == source[prevIndex].term {
      SameTermAgree(log, source, prevIndex, terms);
      SplicedSlice(log, source, prevIndex, to);
    } else {
      assert Spliced(log, prevIndex, source[prevIndex + 1..to])[prevIndex] == log[prevIndex];
      assert source[..to][prevIndex] == source[prevIndex];
    }
  }

  ghost predicate NodesRooted(w: World) {
    forall i <- w.nodes :: 0 < |w.nodes[i].log| && Rooted(w.nodes[i].log, w.past.ledLog)
  }

  // A leader's log is the log of its term, and the next entry to send is within or just past it.
  ghost predicate LeaderCurrent(w: World, i: int)
    requires i in w.nodes
  {
    var n := w.nodes[i];
    n.Leads() ==>
      && n.currentTerm() in w.past.ledLog && w.past.ledLog[n.currentTerm()] == n.log
      && forall p <- n.peers :: CanSend(n, p)
  }

  ghost predicate LeadersCurrent(w: World) {
    forall i <- w.nodes :: LeaderCurrent(w, i)
  }

  // An append request carries a slice of the log of its term's leader ...
  ghost predicate IsSlice(m: Message, terms: TermLogs)
    requires m.AppendRequest?
  {
    && m.term in terms && 0 <= m.prevIndex < m.prevIndex + 1 + |m.entries| <= |terms[m.term]|
    && m.entries == terms[m.term][m.prevIndex + 1..m.prevIndex + 1 + |m.entries|]
    && m.prevTerm == terms[m.term][m.prevIndex].term
  }

  // ... and goes to another node.
  ghost predicate AppendSound(m: Message, led: set<(int, int)>, terms: TermLogs) {
    m.AppendRequest? ==> LedByOther(led, m.term, m.to) && IsSlice(m, terms)
  }

  // A node other than i has led the term.
  ghost predicate LedByOther(led: set<(int, int)>, t: int, i: int) {
    exists c :: c != i && (t, c) in led
  }

  ghost predicate AppendsSound(w: World) {
    forall m <- w.net :: AppendSound(m, w.past.led, w.past.ledLog)
  }

  ghost predicate WasLed(w: World, t: int) {
    exists c :: (t, c) in w.past.led
  }

  // Only led terms have a log, and an election that was won is marked so.
  ghost predicate TermsLed(w: World) {
    && (forall t <- w.past.ledLog :: t == 0 || WasLed(w, t))
    && (forall c <- w.nodes :: WonMarked(w.past.led, c, w.nodes[c]))
  }

  ghost predicate LogInv(w: World) {
    && TermLogsRooted(w.past.ledLog) && NodesRooted(w) && LeadersCurrent(w) && AppendsSound(w) && TermsLed(w)
  }

  ghost predicate FullInv(w: World) {
    Inv(w) && SafeSize(|w.nodes|) && LogInv(w)
  }

  lemma FullInvInit(w: World)
    requires Init(w) && SafeSize(|w.nodes|)
    ensures FullInv(w)
  {
    InvInit(w);
  }

  // The node keeps its log, and if it leads it led before and can still send to whom it could.
  predicate LogSteady(n: NodeState, n': NodeState) {
    && n'.log == n.log && n'.peers == n.peers
    && (n'.Leads() ==> n.Leads() && n'.currentTerm() == n.currentTerm())
    && (forall p <- n.peers :: CanSend(n, p) ==> CanSend(n', p))
  }

  // If the node won its current election, that is marked.
  ghost predicate WonMarked(led: set<(int, int)>, i: int, n: NodeState) {
    (n.ballot.election.term, i) in led ==> n.ballot.election.won
  }

  lemma LogSteadyKeeps(w: World, w': World, i: int, n: NodeState)
    requires LogInv(w) && i in w.nodes && w'.nodes == w.nodes[i := n] && LogSteady(w.nodes[i], n)
    requires w'.past.led == w.past.led && w'.past.ledLog == w.past.ledLog
    requires forall m <- w'.net :: m in w.net || AppendSound(m, w.past.led, w.past.ledLog)
    requires WonMarked(w.past.led, i, n)
    ensures LogInv(w')
  {
    assert LeaderCurrent(w, i);
    forall j <- w'.nodes ensures LeaderCurrent(w', j) {
      assert LeaderCurrent(w, j);
    }
    LedStays(w, w');
  }

  lemma LedStays(w: World, w': World)
    requires w.past.led <= w'.past.led
    ensures forall t :: WasLed(w, t) ==> WasLed(w', t)
  {
    forall t | WasLed(w, t) ensures WasLed(w', t) {
      var c :| (t, c) in w.past.led;
      assert (t, c) in w'.past.led;
    }
  }

  lemma LedTermKnown(w: World, t: int, c: int)
    requires Inv(w) && (t, c) in w.past.led
    ensures c in w.nodes && 0 < t <= w.nodes[c].ballot.election.term <= w.nodes[c].currentTerm()
  {
    var p := PollOf(w);
    assert (c, t) in p.counted;
    assert TallyExact(p, c);
  }

  // All steps but a win, a leader's append, an accepted append request and a send.
  predicate Plain(n: NodeState, st: Step)
    requires Can(n, st)
  {
    && !Wins(n, st)
    && !(st.Take? && n.Leads())
    && !(st.Deliver? && Accepts(n, st.m))
    && !st.Send?
  }

  lemma CountSteady(n: NodeState, st: Step)
    requires Can(n, st) && st.Count? && !Wins(n, st)
    ensures LogSteady(n, NodeAfter(n, st))
  {
    hide Majority;
  }

  lemma AckSteady(n: NodeState, st: Step)
    requires Can(n, st) && st.Ack? && n.log != []
    ensures LogSteady(n, NodeAfter(n, st))
  {
    hide CommitTarget;
  }

  lemma PlainSteady(n: NodeState, st: Step)
    requires Can(n, st) && Plain(n, st) && n.log != []
    ensures LogSteady(n, NodeAfter(n, st))
  {
    hide CommitTarget, AnswerVote, CountVote, CountAppend;
    HandlersKeep(n, st);
    if st.Count? {
      CountSteady(n, st);
    } else if st.Ack? {
      AckSteady(n, st);
    }
  }

  lemma PlainElection(n: NodeState, st: Step)
    requires Can(n, st) && Plain(n, st)
    ensures var e, e' := n.ballot.election, NodeAfter(n, st).ballot.election;
            if st.Timeout? then e'.term == n.currentTerm() + 1 else e'.term == e.term && e'.won == e.won
  {
    hide AnswerAppend, CountAppend, Spliced, Appended, Reset, CommitTarget;
    if st.Deliver? || st.Ack? {
      AppendSteady(n, st);
    }
  }

  lemma PlainMarked(w: World, st: Step)
    requires Inv(w) && LogInv(w) && Enabled(w, st) && Plain(w.nodes[Actor(st)], st)
    ensures WonMarked(w.past.led, Actor(st), NodeAfter(w.nodes[Actor(st)], st))
  {
    var n := w.nodes[Actor(st)];
    assert WonMarked(w.past.led, Actor(st), n);
    PlainElection(n, st);
    if st.Timeout? && (n.currentTerm() + 1, Actor(st)) in w.past.led {
      LedTermKnown(w, n.currentTerm() + 1, Actor(st));
    }
  }

  lemma PlainKeeps(w: World, st: Step)
    requires Inv(w) && LogInv(w) && Enabled(w, st) && Plain(w.nodes[Actor(st)], st)
    ensures LogInv(Next(w, st))
  {
    var n := w.nodes[Actor(st)];
    PlainSteady(n, st);
    PlainMarked(w, st);
    assert forall m <- Sent(n, st) :: !m.AppendRequest?;
    LogSteadyKeeps(w, Next(w, st), Actor(st), NodeAfter(n, st));
  }

  lemma RootedWellIndexed(log: Log, terms: TermLogs)
    requires TermLogsRooted(terms) && Rooted(log, terms) && 0 < |log|
    ensures WellIndexed(log)
  {
    forall i | 0 <= i < |log| ensures log[i].index == i && (i == 0 ==> log[i] == SENTINEL) {
      assert EntryRooted(log, i, terms);
      assert log[..i + 1][i] == terms[log[i].term][..i + 1][i];
    }
  }

  lemma TermLogsLater(terms: TermLogs, t: int, longer: Log)
    requires TermLogsRooted(terms) && WellIndexed(longer) && Rooted(longer, terms[t := longer]) && t > 0
    requires t in terms ==> terms[t] <= longer
    ensures TermLogsRooted(terms[t := longer])
  {
    forall u <- terms | u != t ensures Rooted(terms[u], terms[t := longer]) {
      RootedLater(terms[u], terms, t, longer);
    }
  }

  lemma NodesLater(w: World, w': World, i: int, n: NodeState, t: int, longer: Log)
    requires NodesRooted(w) && (t in w.past.ledLog ==> w.past.ledLog[t] <= longer)
    requires w'.nodes == w.nodes[i := n] && w'.past.ledLog == w.past.ledLog[t := longer]
    requires 0 < |n.log| && Rooted(n.log, w'.past.ledLog)
    ensures NodesRooted(w')
  {
    forall j <- w.nodes | j != i ensures Rooted(w.nodes[j].log, w'.past.ledLog) {
      RootedLater(w.nodes[j].log, w.past.ledLog, t, longer);
    }
  }

  lemma AppendsLater(m: Message, led: set<(int, int)>, led': set<(int, int)>, terms: TermLogs, t: int, longer: Log)
    requires AppendSound(m, led, terms) && led <= led' && (t in terms ==> terms[t] <= longer)
    ensures AppendSound(m, led', terms[t := longer])
  {
    if m.AppendRequest? && m.term == t {
      var to := m.prevIndex + 1 + |m.entries|;
      assert terms[t] == longer[..|terms[t]|];
      assert longer[m.prevIndex + 1..to] == terms[t][m.prevIndex + 1..to];
    }
  }

  // A term can be won only by a node that has not won it, and then nobody has.
  lemma WonTermIsNew(w: World, st: Step)
    requires FullInv(w) && Enabled(w, st) && SafeCount(w, st) && Wins(w.nodes[Actor(st)], st)
    ensures w.nodes[Actor(st)].ballot.election.term !in w.past.ledLog
    ensures w.nodes[Actor(st)].ballot.election.term > 0
  {
    var w', i := Next(w, st), Actor(st);
    var t := w.nodes[i].ballot.election.term;
    InvStep(w, st);
    WellFormedStep(w, st);
    assert (t, i) in w'.past.led;
    LedTermKnown(w', t, i);
    assert WonMarked(w.past.led, i, w.nodes[i]);
    if t in w.past.ledLog {
      assert WasLed(w, t);
      var c :| (t, c) in w.past.led;
      assert |w'.nodes| == |w.nodes| by { assert w'.nodes.Keys == w.nodes.Keys; }
      UniqueLeader(w', t, i, c);
    }
  }

  lemma OthersLeadElsewhere(w: World, w': World, i: int, n: NodeState, t: int, longer: Log)
    requires LeadersCurrent(w) && i in w.nodes && w'.nodes == w.nodes[i := n]
    requires w'.past.ledLog == w.past.ledLog[t := longer]
    requires forall j <- w.nodes | j != i && w.nodes[j].Leads() :: w.nodes[j].currentTerm() != t
    requires LeaderCurrent(w', i)
    ensures LeadersCurrent(w')
  {
    forall j <- w'.nodes ensures LeaderCurrent(w', j) {
      if j != i {
        assert LeaderCurrent(w, j);
      }
    }
  }

  lemma WonNode(n: NodeState, st: Step)
    requires Can(n, st) && Wins(n, st)
    ensures var n' := NodeAfter(n, st);
            && n'.log == n.log && n'.Leads() && n'.currentTerm() == n.currentTerm() && n'.peers == n.peers
            && (n.log != [] ==> forall p <- n.peers :: CanSend(n', p))
    ensures Sent(n, st) == {}
  {
  }

  lemma WinKeepsLogs(w: World, st: Step)
    requires FullInv(w) && Enabled(w, st) && SafeCount(w, st) && Wins(w.nodes[Actor(st)], st)
    ensures LogInv(Next(w, st))
  {
    hide Inv, NodeAfter, Sent, Rooted, IsSlice, WonMarked, TermsLed;
    var w', i := Next(w, st), Actor(st);
    var n, n', terms := w.nodes[i], w'.nodes[i], w.past.ledLog;
    var t := n.ballot.election.term;
    WonTermIsNew(w, st);
    WonNode(n, st);
    RootedWellIndexed(n.log, terms);
    RootedLater(n.log, terms, t, n.log);
    TermLogsLater(terms, t, n.log);
    NodesLater(w, w', i, n', t, n.log);
    forall j <- w.nodes | j != i && w.nodes[j].Leads() ensures w.nodes[j].currentTerm() != t {
      assert LeaderCurrent(w, j);
    }
    OthersLeadElsewhere(w, w', i, n', t, n.log);
    forall m <- w'.net ensures AppendSound(m, w'.past.led, w'.past.ledLog) {
      AppendsLater(m, w.past.led, w'.past.led, terms, t, n.log);
    }
    WinTermsLed(w, st);
  }

  lemma WinTermsLed(w: World, st: Step)
    requires LogInv(w) && Enabled(w, st) && Wins(w.nodes[Actor(st)], st)
    ensures TermsLed(Next(w, st))
  {
    var w', i := Next(w, st), Actor(st);
    LedStays(w, w');
    var t := w.nodes[i].ballot.election.term;
    assert (t, i) in w'.past.led;
    assert WasLed(w', t);
    assert w'.nodes[i].ballot.election.won;
    forall c <- w'.nodes ensures WonMarked(w'.past.led, c, w'.nodes[c]) {
      if c != i {
        assert WonMarked(w.past.led, c, w.nodes[c]);
      }
    }
  }

  lemma LeaderUnique(w: World, i: int, j: int)
    requires FullInv(w) && i in w.nodes && j in w.nodes && w.nodes[i].Leads()
    requires (w.nodes[i].currentTerm(), j) in w.past.led
    ensures i == j
  {
    assert PollOf(w).ballots[i].role == Leader;
    UniqueLeader(w, w.nodes[i].currentTerm(), i, j);
  }

  lemma OthersLeadOthers(w: World, i: int)
    requires FullInv(w) && i in w.nodes && w.nodes[i].Leads()
    ensures forall j <- w.nodes | j != i && w.nodes[j].Leads() :: w.nodes[j].currentTerm() != w.nodes[i].currentTerm()
  {
    hide Inv, LogInv;
    forall j <- w.nodes | j != i && w.nodes[j].Leads() ensures w.nodes[j].currentTerm() != w.nodes[i].currentTerm() {
      LeaderKnows(w, j);
      if w.nodes[j].currentTerm() == w.nodes[i].currentTerm() {
        LeaderUnique(w, i, j);
      }
    }
  }

  // A leader may append whatever leaves its log rooted.
  lemma LongerKeepsLogs(w: World, st: Step)
    requires FullInv(w) && Enabled(w, st) && st.Take? && w.nodes[Actor(st)].Leads()
    requires var n := w.nodes[Actor(st)];
             var longer := Appended(n.log, n.proposals[0]);
             Rooted(longer, w.past.ledLog[n.currentTerm() := longer]) && WellIndexed(longer)
    ensures LogInv(Next(w, st))
  {
    hide Inv, PollOf, Rooted, AppendSound, LedByOther;
    var w', i := Next(w, st), Actor(st);
    var n, n', terms := w.nodes[i], w'.nodes[i], w.past.ledLog;
    var t, longer := n.currentTerm(), Appended(n.log, n.proposals[0]);
    LeaderKnows(w, i);
    LedTermKnown(w, t, i);
    TermLogsLater(terms, t, longer);
    NodesLater(w, w', i, n', t, longer);
    OthersLeadOthers(w, i);
    OthersLeadElsewhere(w, w', i, n', t, longer);
    forall m <- w'.net ensures AppendSound(m, w'.past.led, w'.past.ledLog) {
      AppendsLater(m, w.past.led, w'.past.led, terms, t, longer);
    }
    LedStays(w, w');
    assert forall c <- w.nodes :: WonMarked(w.past.led, c, w.nodes[c]);
  }

  lemma TakeKeepsLogs(w: World, st: Step)
    requires FullInv(w) && Enabled(w, st) && TimelyTake(w, st) && st.Take? && w.nodes[Actor(st)].Leads()
    ensures LogInv(Next(w, st))
  {
    var i := Actor(st);
    var n := w.nodes[i];
    var longer := Appended(n.log, n.proposals[0]);
    assert LeaderCurrent(w, i);
    RootedAppended(n.log, w.past.ledLog, n.currentTerm(), n.proposals[0].(index := |n.log|));
    assert Appended(n.log, n.proposals[0].(index := |n.log|)) == longer;
    LongerKeepsLogs(w, st);
  }

  // What is left of a rooted log when a request without entries is accepted.
  lemma DeliverTruncates(n: NodeState, m: Message, terms: TermLogs)
    requires Rooted(n.log, terms) && m.AppendRequest? && m.prevIndex >= 0 && m.entries == [] && Accepts(n, m)
    ensures var log := AnswerAppend(n, m).0.log; log == n.log[..m.prevIndex + 1] && log != [] && Rooted(log, terms)
  {
    RootedShorter(n.log, terms, m.prevIndex + 1);
  }

  // An accepted request makes the receiver's log a prefix of the log of the request's term.
  lemma DeliverCopies(n: NodeState, m: Message, terms: TermLogs)
    requires TermLogsRooted(terms) && Rooted(n.log, terms)
    requires m.AppendRequest? && IsSlice(m, terms) && Accepts(n, m) && n.log[m.prevIndex].term == m.prevTerm
    ensures var to := m.prevIndex + 1 + |m.entries|;
            to <= |terms[m.term]| && AnswerAppend(n, m).0.log == terms[m.term][..to]
  {
    SameTermAgree(n.log, terms[m.term], m.prevIndex, terms);
    SplicedSlice(n.log, terms[m.term], m.prevIndex, m.prevIndex + 1 + |m.entries|);
  }

  // The receiver of a request for its own term is not that term's leader.
  lemma ReceiverFollows(w: World, m: Message)
    requires FullInv(w) && Enabled(w, Deliver(m)) && Accepts(w.nodes[m.to], m)
    ensures AppendSound(m, w.past.led, w.past.ledLog)
    ensures !AnswerAppend(w.nodes[m.to], m).0.Leads()
  {
    assert AppendSound(m, w.past.led, w.past.ledLog);
    if w.nodes[m.to].Leads() && w.nodes[m.to].currentTerm() == m.term {
      var c :| c != m.to && (m.term, c) in w.past.led;
      LedTermKnown(w, m.term, c);
      LeaderUnique(w, m.to, c);
    }
  }

  lemma DeliverKeepsLogs(w: World, st: Step)
    requires FullInv(w) && Enabled(w, st) && MatchingDeliver(w, st)
    requires st.Deliver? && Accepts(w.nodes[Actor(st)], st.m)
    ensures LogInv(Next(w, st))
  {
    hide Inv, PollOf, Rooted, LeadersCurrent, AppendsSound, TermsLed, AnswerAppend, Accepts;
    var w', m := Next(w, st), st.m;
    var n', terms := w'.nodes[m.to], w.past.ledLog;
    ReceiverFollows(w, m);
    AnswerAppendKeeps(w.nodes[m.to], m);
    if m.entries == [] {
      DeliverTruncates(w.nodes[m.to], m, terms);
    } else {
      DeliverCopies(w.nodes[m.to], m, terms);
      RootedShorter(terms[m.term], terms, m.prevIndex + 1 + |m.entries|);
    }
    FollowerCopies(w, w', m.to, n');
  }

  // A follower may take over any rooted log.
  lemma FollowerCopies(w: World, w': World, i: int, n: NodeState)
    requires LogInv(w) && i in w.nodes && w'.nodes == w.nodes[i := n] && !n.Leads()
    requires w'.past.led == w.past.led && w'.past.ledLog == w.past.ledLog
    requires forall m <- w'.net :: m in w.net || !m.AppendRequest?
    requires 0 < |n.log| && Rooted(n.log, w.past.ledLog)
    requires n.ballot.election == w.nodes[i].ballot.election
    ensures LogInv(w')
  {
    forall j <- w'.nodes ensures LeaderCurrent(w', j) {
      assert LeaderCurrent(w, j);
    }
    LedStays(w, w');
    assert forall c <- w.nodes :: WonMarked(w.past.led, c, w.nodes[c]);
  }

  // A leader is on record, and its log is the log of its term.
  lemma LeaderKnows(w: World, i: int)
    requires FullInv(w) && i in w.nodes && w.nodes[i].Leads()
    ensures var n := w.nodes[i];
            && (n.currentTerm(), i) in w.past.led && n.id == i && n.peers == w.nodes.Keys - {i}
            && n.currentTerm() in w.past.ledLog && w.past.ledLog[n.currentTerm()] == n.log
            && forall p <- n.peers :: CanSend(n, p)
  {
    hide VotesRecorded, MessagesRecorded, CountsRecorded, TalliesExact, TermLogsRooted, NodesRooted, AppendsSound, TermsLed;
    assert LeaderCurrent(w, i);
    assert PollOf(w).ballots[i].role == Leader;
  }

  lemma SnapshotSound(w: World, i: int, p: int)
    requires FullInv(w) && i in w.nodes && w.nodes[i].Leads() && p in w.nodes[i].peers
    ensures CanSend(w.nodes[i], p) && AppendSound(SnapshotFor(w.nodes[i], p), w.past.led, w.past.ledLog)
  {
    hide Inv, LogInv;
    LeaderKnows(w, i);
  }

  lemma SendKeepsLogs(w: World, st: Step)
    requires FullInv(w) && Enabled(w, st) && LeadingSend(w, st) && st.Send?
    ensures LogInv(Next(w, st))
  {
    hide Inv, TermLogsRooted, NodesRooted, AppendsSound, Rooted, SnapshotFor;
    var i, p := st.node, st.peer;
    LeaderKnows(w, i);
    SnapshotSound(w, i, p);
    assert WonMarked(w.past.led, i, w.nodes[i]);
    LogSteadyKeeps(w, Next(w, st), i, w.nodes[i]);
  }

  lemma FullInvStep(w: World, st: Step)
    requires FullInv(w) && Enabled(w, st)
    requires SafeCount(w, st) && TimelyTake(w, st) && MatchingDeliver(w, st) && LeadingSend(w, st)
    ensures FullInv(Next(w, st))
  {
    InvStep(w, st);
    WellFormedStep(w, st);
    assert |Next(w, st).nodes| == |w.nodes| by { assert Next(w, st).nodes.Keys == w.nodes.Keys; }
    if Plain(w.nodes[Actor(st)], st) {
      PlainKeeps(w, st);
    } else if st.Take? {
      TakeKeepsLogs(w, st);
    } else if st.Deliver? {
      DeliverKeepsLogs(w, st);
    } else if st.Send? {
      SendKeepsLogs(w, st);
    } else {
      WinKeepsLogs(w, st);
    }
  }

  lemma {:induction false} FullInvRun(run: seq<World>, steps: seq<Step>, k: int)
    requires IsRun(run, steps) && Init(run[0]) && SafeSize(|run[0].nodes|) && 0 <= k < |run|
    requires SafeCounts(run, steps) && TimelyTakes(run, steps) && MatchingDelivers(run, steps)
    requires LeadingSends(run, steps)
    ensures FullInv(run[k]) && run[k].nodes.Keys == run[0].nodes.Keys
  {
    if k == 0 {
      FullInvInit(run[0]);
    } else {
      FullInvRun(run, steps, k - 1);
      assert SafeCount(run[k - 1], steps[k - 1]) && TimelyTake(run[k - 1], steps[k - 1])
          && MatchingDeliver(run[k - 1], steps[k - 1]) && LeadingSend(run[k - 1], steps[k - 1]);
      FullInvStep(run[k - 1], steps[k - 1]);
      WellFormedStep(run[k - 1], steps[k - 1]);
    }
  }

  /**
   Log matching (section 5.3 of the Raft paper), across any number of leader changes and with
   append requests lost, repeated and reordered: if two nodes' logs have an entry with the same
   index and term, they are identical through that index.
   */
  lemma LogsMatch(run: seq<World>, steps: seq<Step>, k: int, a: int, b: int, i: int)
    requires IsRun(run, steps) && Init(run[0]) && SafeSize(|run[0].nodes|) && 0 <= k < |run|
    requires SafeCounts(run, steps) && TimelyTakes(run, steps) && MatchingDelivers(run, steps)
    requires LeadingSends(run, steps)
    requires a in run[k].nodes && b in run[k].nodes
    requires 0 <= i < |run[k].nodes[a].log| && i < |run[k].nodes[b].log|
    requires run[k].nodes[a].log[i].term == run[k].nodes[b].log[i].term
    ensures run[k].nodes[a].log[..i + 1] == run[k].nodes[b].log[..i + 1]
  {
    FullInvRun(run, steps, k);
    SameTermAgree(run[k].nodes[a].log, run[k].nodes[b].log, i, run[k].past.ledLog);
  }
}
