/**
 Leader completeness and state machine safety (section 5.4 of the Raft paper): across any
 number of leader changes, what one leader committed is in the log of every later leader,
 and no two nodes ever apply different entries at one index.
 */
module Completeness {
  import opened Basics
  import opened RaftLogs
  import opened RaftNodes
  import opened RaftSystem
  import opened ElectionSafety
  import opened LogMatching
  import opened Replication

  // More of what has happened so far, kept beside Past; again no step reads it.
  datatype Ledger = Ledger(
    // term -> how long its leader's log was at the election
    base: map<int, int>,
    // node -> the term of the leader whose log it copied last (or which it led itself)
    source: map<int, int>,
    // (node, term) -> how much of that term's log the node once had
    held: map<(int, int), int>,
    // (voter, term) -> source and length of the voter's log when it voted
    ballots: map<(int, int), (int, int)>,
    // term -> the voters that made its leader
    backers: map<int, set<int>>,
    // node -> term and index of the leader's commit that its commit index comes from
    decided: map<int, (int, int)>)

  // The lexicographic order on (last term, length) by which votes are granted.
  predicate AsComplete(a: Log, b: Log)
    requires a != [] && b != []
  {
    LastTermOf(a) > LastTermOf(b) || (LastTermOf(a) == LastTermOf(b) && |a| >= |b|)
  }

  ghost predicate Sorted(log: Log) {
    forall i, j :: 0 <= i < j < |log| ==> log[i].term <= log[j].term
  }

  // A leader's log is what it was elected with, all of earlier terms, and what it added.
  ghost predicate TermShape(t: int, log: Log, base: int) {
    && 1 <= base <= |log| && Sorted(log)
    && (t > 0 ==> forall i :: 0 <= i < base ==> log[i].term < t)
    && (forall i :: base <= i < |log| ==> log[i].term == t)
    && (t == 0 ==> log == [SENTINEL])
  }

  ghost predicate Shapes(terms: TermLogs, base: map<int, int>) {
    forall t <- terms :: 0 <= t && t in base && TermShape(t, terms[t], base[t])
  }

  // The log is a copy of the log of term s, reaching beyond what its leader was elected with.
  ghost predicate CopyOf(log: Log, s: int, terms: TermLogs, base: map<int, int>) {
    && s in terms && s in base && base[s] <= |log| <= |terms[s]| && log == terms[s][..|log|]
  }

  // v voted in term T with a log (s, len) that had all of earlier terms that v ever held.
  ghost predicate BallotFair(g: Ledger, terms: TermLogs, v: int, T: int) {
    (v, T) in g.ballots &&
    var (s, len) := g.ballots[(v, T)];
    && s <= T && s in terms && s in g.base && 1 <= g.base[s] <= len <= |terms[s]|
    && forall t :: t < T && (v, t) in g.held ==> t <= s && (t == s ==> g.held[(v, t)] <= len)
  }

  function BallotLog(g: Ledger, terms: TermLogs, v: int, T: int): Log
    requires (v, T) in g.ballots
    requires g.ballots[(v, T)].0 in terms && 0 <= g.ballots[(v, T)].1 <= |terms[g.ballots[(v, T)].0]|
  {
    terms[g.ballots[(v, T)].0][..g.ballots[(v, T)].1]
  }

  // v's vote helped elect the leader of term T, over a log no better than the leader's.
  ghost predicate Backs(g: Ledger, terms: TermLogs, v: int, T: int) {
    && T in terms && T in g.base && 1 <= g.base[T] <= |terms[T]|
    && BallotFair(g, terms, v, T) && g.ballots[(v, T)].0 < T
    && AsComplete(terms[T][..g.base[T]], BallotLog(g, terms, v, T))
  }

  ghost predicate AllBacked(g: Ledger, terms: TermLogs, nodes: set<int>) {
    forall T <- terms :: T > 0 ==>
      && T in g.backers && g.backers[T] <= nodes && Winning(|g.backers[T]|, |nodes|)
      && forall v <- g.backers[T] :: Backs(g, terms, v, T)
  }

  ghost predicate HeldSound(g: Ledger, terms: TermLogs) {
    forall v, t :: (v, t) in g.held ==> t in terms && 0 <= g.held[(v, t)] <= |terms[t]|
  }

  // The nodes that have had index idx of term t's log.
  function AckSet(g: Ledger, nodes: set<int>, t: int, idx: int): set<int> {
    set v | v in nodes && (v, t) in g.held && idx < g.held[(v, t)]
  }

  // The entry at idx, of term t itself, has reached a quorum.
  ghost predicate Chosen(g: Ledger, terms: TermLogs, nodes: set<int>, t: int, idx: int) {
    && 0 < t && t in terms && 0 <= idx < |terms[t]| && terms[t][idx].term == t
    && |AckSet(g, nodes, t, idx)| >= Quorum(|nodes|)
  }

  ghost predicate Structure(g: Ledger, terms: TermLogs, nodes: set<int>) {
    && TermLogsRooted(terms) && Shapes(terms, g.base)
    && HeldSound(g, terms) && AllBacked(g, terms, nodes)
  }

  // A prefix of term u's log that ends in an entry of term t is a prefix of term t's log.
  lemma PrefixOfLastTerm(terms: TermLogs, u: int, k: int, t: int)
    requires TermLogsRooted(terms) && u in terms && 0 < k <= |terms[u]| && terms[u][k - 1].term == t
    ensures t in terms && Agree(terms[u], terms[t], k)
  {
    assert EntryRooted(terms[u], k - 1, terms);
  }

  lemma LastAtLeast(log: Log, i: int)
    requires Sorted(log) && 0 <= i < |log|
    ensures log[i].term <= log[|log| - 1].term
  {
  }

  // A voter that had the chosen entry voted with a log that has it.
  lemma VoterHad(g: Ledger, terms: TermLogs, nodes: set<int>, t: int, idx: int, T: int, v: int)
    requires Structure(g, terms, nodes) && Chosen(g, terms, nodes, t, idx) && t < T && T in terms
    requires Backs(g, terms, v, T) && (v, t) in g.held && idx < g.held[(v, t)]
    requires forall u :: t < u < T && u in terms ==> idx < g.base[u] && Agree(terms[u], terms[t], idx + 1)
    ensures var x := BallotLog(g, terms, v, T);
            && idx < |x| && t <= LastTermOf(x) && (LastTermOf(x) == t ==> Agree(terms[t], x, idx + 1))
  {
    hide AllBacked;
    var (s, len) := g.ballots[(v, T)];
    assert idx < len && Agree(terms[s], terms[t], idx + 1);
    assert terms[s][..idx + 1][idx] == terms[t][..idx + 1][idx];
    LastAtLeast(terms[s][..len], idx);
  }

  // One voter that had the chosen entry passes it on to the leader it voted for.
  lemma VoterPassesOn(g: Ledger, terms: TermLogs, nodes: set<int>, t: int, idx: int, T: int, v: int)
    requires Structure(g, terms, nodes) && Chosen(g, terms, nodes, t, idx) && t < T && T in terms
    requires Backs(g, terms, v, T) && (v, t) in g.held && idx < g.held[(v, t)]
    requires forall u :: t < u < T && u in terms ==> idx < g.base[u] && Agree(terms[u], terms[t], idx + 1)
    ensures idx < g.base[T] && Agree(terms[T], terms[t], idx + 1)
  {
    VoterHad(g, terms, nodes, t, idx, T, v);
    hide BallotFair, AllBacked, HeldSound, Chosen;
    var k := g.base[T];
    var u := terms[T][k - 1].term;
    assert terms[T][..k][k - 1].term == u >= t;
    PrefixOfLastTerm(terms, T, k, u);
    assert u < T && Agree(terms[T], terms[u], k);
    if u == t {
      AgreeShorter(terms[T], terms[t], k, idx + 1);
    } else {
      assert k > g.base[u] by {
        assert terms[T][..k][k - 1] == terms[u][..k][k - 1];
      }
      AgreeShorter(terms[T], terms[u], k, idx + 1);
      AgreeTrans(terms[T], terms[u], terms[t], idx + 1);
    }
  }

  /** Leader completeness: every later leader was elected with all that was ever chosen before its term. */
  lemma {:induction false} LeaderCompleteness(g: Ledger, terms: TermLogs, nodes: set<int>, t: int, idx: int, T: int)
    requires Structure(g, terms, nodes) && SafeSize(|nodes|)
    requires Chosen(g, terms, nodes, t, idx) && t < T && T in terms
    ensures T in g.base && idx < g.base[T] && Agree(terms[T], terms[t], idx + 1)
    decreases T
  {
    forall u | t < u < T && u in terms ensures idx < g.base[u] && Agree(terms[u], terms[t], idx + 1) {
      LeaderCompleteness(g, terms, nodes, t, idx, u);
    }
    var v := BigSetsMeet(AckSet(g, nodes, t, idx), g.backers[T], nodes);
    VoterPassesOn(g, terms, nodes, t, idx, T, v);
  }

  // -----  What each node knows  -----

  // Nobody has led term T yet, and c is in it: c's log is the one it stands with.
  predicate Open(w: World, c: int, T: int) {
    c in w.nodes && w.nodes[c].currentTerm() == T && T !in w.past.ledLog
  }

  ghost predicate SourceKnown(w: World, g: Ledger, v: int)
    requires v in w.nodes
  {
    && v in g.source && g.source[v] <= w.nodes[v].currentTerm()
    && CopyOf(w.nodes[v].log, g.source[v], w.past.ledLog, g.base)
    && (w.nodes[v].Leads() ==>
          && g.source[v] == w.nodes[v].currentTerm()
          && (v, g.source[v]) in g.held && g.held[(v, g.source[v])] == |w.nodes[v].log|)
  }

  ghost predicate SourcesKnown(w: World, g: Ledger) {
    forall v <- w.nodes :: SourceKnown(w, g, v)
  }

  ghost predicate HeldKnown(w: World, g: Ledger) {
    forall v, t :: (v, t) in g.held ==>
      && v in w.nodes && v in g.source && t <= g.source[v]
      && (t == g.source[v] ==> g.held[(v, t)] <= |w.nodes[v].log|)
  }

  ghost predicate BallotKnown(w: World, g: Ledger, v: int, T: int) {
    && (v, T) in w.past.votes && v in w.nodes
    && BallotFair(g, w.past.ledLog, v, T)
    && var c := w.past.votes[(v, T)];
    && c in w.nodes && T <= w.nodes[c].currentTerm() && T <= w.nodes[v].currentTerm()
    && (Open(w, c, T) ==> w.nodes[c].log != [] && AsComplete(w.nodes[c].log, BallotLog(g, w.past.ledLog, v, T)))
  }

  ghost predicate BallotsKnown(w: World, g: Ledger) {
    && (forall v, T :: (v, T) in w.past.votes ==> (v, T) in g.ballots)
    && (forall v, T :: (v, T) in g.ballots ==> BallotKnown(w, g, v, T))
  }

  ghost predicate RequestKnown(w: World, m: Message) {
    m.VoteRequest? ==>
      && m.cand in w.nodes && m.term <= w.nodes[m.cand].currentTerm()
      && (Open(w, m.cand, m.term) ==>
            && w.nodes[m.cand].log != []
            && m.lastLogIndex == |w.nodes[m.cand].log| - 1 && m.lastLogTerm == LastTermOf(w.nodes[m.cand].log))
  }

  ghost predicate RequestsKnown(w: World) {
    forall m <- w.net :: RequestKnown(w, m)
  }

  ghost predicate MatchKnown(n: NodeState, g: Ledger) {
    && n.matchIndex.Keys <= n.peers
    && (n.Leads() ==> n.matchIndex.Keys == n.peers)
    && (n.Leads() ==> forall p <- n.peers ::
          0 <= n.matchIndex[p]
          && (n.matchIndex[p] > 0 ==>
                (p, n.currentTerm()) in g.held && n.matchIndex[p] < g.held[(p, n.currentTerm())]))
  }

  ghost predicate Decided(g: Ledger, terms: TermLogs, nodes: set<int>, t: int, idx: int) {
    (t == 0 && idx == 0 && 0 in terms && 0 < |terms[0]|) || Chosen(g, terms, nodes, t, idx)
  }

  // The node's committed prefix is part of what some leader had chosen.
  ghost predicate CommitKnown(w: World, g: Ledger, i: int)
    requires i in w.nodes
  {
    && i in g.decided
    && var (t, idx) := g.decided[i];
    && Decided(g, w.past.ledLog, w.nodes.Keys, t, idx)
    && t <= w.nodes[i].currentTerm()
    && w.nodes[i].commitIndex <= idx
    && Agree(w.nodes[i].log, w.past.ledLog[t], w.nodes[i].commitIndex + 1)
  }

  ghost predicate NodesKnown(w: World, g: Ledger) {
    forall i <- w.nodes ::
      MatchKnown(w.nodes[i], g) && CommitKnown(w, g, i) && Replayed(w.nodes[i], AppliedBy(w.past, i))
  }

  ghost predicate Known(w: World, g: Ledger) {
    && Structure(g, w.past.ledLog, w.nodes.Keys)
    && SourcesKnown(w, g) && HeldKnown(w, g)
    && BallotsKnown(w, g) && RequestsKnown(w)
    && NodesKnown(w, g)
  }

  // What is known of one node ...
  lemma NodeIsKnown(w: World, g: Ledger, i: int)
    requires Known(w, g) && i in w.nodes
    ensures i in g.source && i in g.decided
    ensures SourceKnown(w, g, i) && MatchKnown(w.nodes[i], g) && CommitKnown(w, g, i)
    ensures Replayed(w.nodes[i], AppliedBy(w.past, i))
  {
    hide Structure, HeldKnown, BallotsKnown, RequestsKnown, MatchKnown, Replayed, Decided;
    assert SourceKnown(w, g, i) && CommitKnown(w, g, i);
  }

  // ... and of one vote.
  lemma BallotIsKnown(w: World, g: Ledger, v: int, T: int)
    requires Known(w, g) && (v, T) in g.ballots
    ensures BallotKnown(w, g, v, T) && (v, T) in w.past.votes && v in w.nodes && w.past.votes[(v, T)] in w.nodes
    ensures BallotFair(g, w.past.ledLog, v, T)
    ensures T <= w.nodes[v].currentTerm() && T <= w.nodes[w.past.votes[(v, T)]].currentTerm()
  {
    hide Structure, SourcesKnown, HeldKnown, RequestsKnown, NodesKnown;
    assert BallotKnown(w, g, v, T);
  }

  // -----  How the ledger is kept  -----

  function BallotsAfter(w: World, g: Ledger, st: Step): map<(int, int), (int, int)>
    requires Enabled(w, st) && Actor(st) in g.source
  {
    var i, n := Actor(st), w.nodes[Actor(st)];
    var here := (g.source[i], |n.log|);
    if st.Timeout? then g.ballots[(i, n.currentTerm() + 1) := here]
    else if st.Answer? && AnswerVote(n, st.m).1.granted && (i, st.m.term) !in g.ballots then
      g.ballots[(i, st.m.term) := here]
    else g.ballots
  }

  function LocalLedger(w: World, g: Ledger, st: Step): Ledger
    requires Enabled(w, st) && Actor(st) in g.source
  {
    var i, n := Actor(st), w.nodes[Actor(st)];
    var t := n.ballot.election.term;
    if Wins(n, st) then
      g.(base := g.base[t := |n.log|], source := g.source[i := t], held := g.held[(i, t) := |n.log|],
      backers := g.backers[t := Voters(CountedAfter(w.past.counted, i, n, st), i, t)])
    else if st.Take? && n.Leads() then g.(held := g.held[(i, n.currentTerm()) := |n.log| + 1])
    else g.(ballots := BallotsAfter(w, g, st))
  }

  function ExchangeLedger(w: World, g: Ledger, a: Action): Ledger
    requires Possible(w, a) && a.Exchange? && a.leader in g.decided
  {
    var l, p := a.leader, a.peer;
    var n := w.nodes[l];
    if !Reply(w, a).success then g
    else
      var d := if PeerAfter(w, a).commitIndex != w.nodes[p].commitIndex then g.decided[p := g.decided[l]] else g.decided;
      g.(source := g.source[p := n.currentTerm()], held := g.held[(p, n.currentTerm()) := |n.log|],
      decided := if LeaderAfter(w, a).commitIndex != n.commitIndex
                 then d[l := (n.currentTerm(), LeaderAfter(w, a).commitIndex)] else d)
  }

  function InitialLedger(w: World): Ledger {
    Ledger(map[0 := 1], map i | i in w.nodes :: 0, map[], map[], map[], map i | i in w.nodes :: (0, 0))
  }

  lemma InitStructure(w: World)
    requires Init(w)
    ensures var g := InitialLedger(w);
            Structure(g, w.past.ledLog, w.nodes.Keys) && HeldKnown(w, g) && BallotsKnown(w, g) && RequestsKnown(w)
  {
    assert w.past.ledLog == map[0 := [SENTINEL]];
  }

  lemma InitNodes(w: World)
    requires Init(w)
    ensures forall i <- w.nodes :: MatchKnown(w.nodes[i], InitialLedger(w)) && Replayed(w.nodes[i], AppliedBy(w.past, i))
  {
  }

  lemma InitKnown(w: World)
    requires Init(w)
    ensures Known(w, InitialLedger(w))
  {
    hide Structure, HeldKnown, BallotsKnown, RequestsKnown, Replayed, MatchKnown;
    assert w.past.ledLog == map[0 := [SENTINEL]];
    InitStructure(w);
    InitNodes(w);
  }

  // -----  What is known stays known as the record grows  -----

  ghost predicate Extends(g: Ledger, terms: TermLogs, g': Ledger, terms': TermLogs) {
    && (forall t <- terms :: t in terms' && terms[t] <= terms'[t])
    && (forall t <- g.base :: t in terms ==> t in g'.base && g'.base[t] == g.base[t])
    && (forall k <- g.ballots :: k in g'.ballots && g'.ballots[k] == g.ballots[k])
    && (forall k <- g.held :: k in g'.held && g.held[k] <= g'.held[k])
    && (forall v, t :: (v, t) in g'.held ==>
          ((v, t) in g.held && g'.held[(v, t)] == g.held[(v, t)])
          || forall T :: (v, T) in g.ballots ==> T <= t)
  }

  lemma BallotLater(g: Ledger, terms: TermLogs, g': Ledger, terms': TermLogs, v: int, T: int)
    requires Extends(g, terms, g', terms') && BallotFair(g, terms, v, T)
    ensures BallotFair(g', terms', v, T)
    ensures BallotLog(g', terms', v, T) == BallotLog(g, terms, v, T)
  {
    var (s, len) := g.ballots[(v, T)];
    assert terms'[s][..|terms[s]|] == terms[s];
  }

  lemma BacksLater(g: Ledger, terms: TermLogs, g': Ledger, terms': TermLogs, v: int, T: int)
    requires Extends(g, terms, g', terms') && Backs(g, terms, v, T)
    ensures Backs(g', terms', v, T)
  {
    BallotLater(g, terms, g', terms', v, T);
    assert terms'[T][..|terms[T]|] == terms[T];
    assert terms'[T][..g.base[T]] == terms[T][..g.base[T]];
  }

  lemma ChosenLater(g: Ledger, terms: TermLogs, g': Ledger, terms': TermLogs, nodes: set<int>, t: int, idx: int)
    requires Extends(g, terms, g', terms') && Decided(g, terms, nodes, t, idx)
    ensures Decided(g', terms', nodes, t, idx)
  {
    forall v <- AckSet(g, nodes, t, idx) ensures v in AckSet(g', nodes, t, idx) {
    }
    SubsetSize(AckSet(g, nodes, t, idx), AckSet(g', nodes, t, idx));
  }

  // H1, H2 and H6, and H3 for an exchange, with entries or without.
  ghost predicate Careful(w: World, a: Action)
    requires Possible(w, a)
  {
    Prompt(w, a) && (a.Exchange? ==> NamesTerm(w.nodes[a.peer], Request(w, a)))
  }

  predicate NamesTerm(n: NodeState, m: Message)
    requires m.AppendRequest?
  {
    Accepts(n, m) && m.prevIndex >= 0 ==> n.log[m.prevIndex].term == m.prevTerm
  }

  lemma CarefulLeads(w: World, a: Action)
    requires Possible(w, a) && a.Exchange? && Careful(w, a)
    ensures w.nodes[a.leader].Leads()
  {
  }

  lemma FullInvAfter(w: World, a: Action)
    requires FullInv(w) && Possible(w, a) && Careful(w, a)
    ensures FullInv(After(w, a))
  {
    hide PollInv, LogInv, Next, AnswerAppend, CountAppend;
    match a
    case Do(st) => FullInvStep(w, st);
    case Exchange(i, p, lost) =>
      ExchangeIsItsSteps(w, a);
      var s1, s2, s3 := Send(i, p), Deliver(Request(w, a)), Ack(Reply(w, a));
      FullInvStep(w, s1);
      var w1 := Next(w, s1);
      FullInvStep(w1, s2);
      if !lost {
        FullInvStep(Next(w1, s2), s3);
      }
  }

  // -----  Steps that leave all logs alone  -----

  // A step outside an exchange that is neither a win nor a leader's append.
  predicate Still(n: NodeState, st: Step)
    requires Can(n, st)
  {
    !st.Send? && !st.Deliver? && !st.Ack? && Plain(n, st)
  }

  ghost predicate StillStep(w: World, g: Ledger, st: Step) {
    && FullInv(w) && Known(w, g) && Enabled(w, st) && SafeCount(w, st)
    && Still(w.nodes[Actor(st)], st)
  }

  // What a still step leaves as it was.
  lemma StillNode(w: World, g: Ledger, st: Step)
    requires StillStep(w, g, st)
    ensures Actor(st) in g.source
    ensures var n, n' := w.nodes[Actor(st)], NodeAfter(w.nodes[Actor(st)], st);
            && n'.log == n.log && n.log != [] && n'.peers == n.peers && n'.commitIndex == n.commitIndex
            && n'.matchIndex == n.matchIndex && n.currentTerm() <= n'.currentTerm()
            && (n'.Leads() ==> n.Leads() && n'.currentTerm() == n.currentTerm())
            && (!st.Apply? ==> n'.lastApplied == n.lastApplied && n'.groups == n.groups)
    ensures Next(w, st).past.ledLog == w.past.ledLog && Next(w, st).nodes.Keys == w.nodes.Keys
    ensures LocalLedger(w, g, st) == g.(ballots := BallotsAfter(w, g, st))
  {
    var n := w.nodes[Actor(st)];
    assert SourceKnown(w, g, Actor(st));
    PlainSteady(n, st);
    LocalStep(n, st);
    LocalKnowledge(n, st);
    TermsNeverDecrease(w, st, Actor(st));
    WellFormedStep(w, st);
  }

  // A candidate has no ballot yet in the term it starts.
  lemma NextTermUnvoted(w: World, g: Ledger, i: int)
    requires FullInv(w) && BallotsKnown(w, g) && i in w.nodes
    ensures (i, w.nodes[i].currentTerm() + 1) !in g.ballots
  {
    var t := w.nodes[i].currentTerm() + 1;
    assert (i, t) in g.ballots ==> BallotKnown(w, g, i, t);
  }

  lemma StillExtends(w: World, g: Ledger, st: Step)
    requires StillStep(w, g, st)
    ensures Extends(g, w.past.ledLog, LocalLedger(w, g, st), w.past.ledLog)
  {
    hide FullInv, Structure, SourcesKnown, HeldKnown, RequestsKnown, NodesKnown, BallotKnown, NodeAfter, Next, Still, SafeCount;
    StillNode(w, g, st);
    NextTermUnvoted(w, g, Actor(st));
  }

  lemma StillStructure(w: World, g: Ledger, st: Step)
    requires StillStep(w, g, st)
    ensures Structure(LocalLedger(w, g, st), w.past.ledLog, w.nodes.Keys)
  {
    StillNode(w, g, st);
    StillExtends(w, g, st);
    var g', terms := LocalLedger(w, g, st), w.past.ledLog;
    forall T, v | T in terms && T > 0 && v in g.backers[T] ensures Backs(g', terms, v, T) {
      BacksLater(g, terms, g', terms, v, T);
    }
  }

  lemma StillSources(w: World, g: Ledger, st: Step)
    requires StillStep(w, g, st)
    ensures SourcesKnown(Next(w, st), LocalLedger(w, g, st)) && HeldKnown(Next(w, st), LocalLedger(w, g, st))
  {
    hide FullInv, Structure, BallotsKnown, RequestsKnown, NodesKnown, NodeAfter, Still, SafeCount, LocalLedger, CopyOf;
    StillNode(w, g, st);
    var w', g' := Next(w, st), LocalLedger(w, g, st);
    forall v <- w'.nodes ensures SourceKnown(w', g', v) {
      assert SourceKnown(w, g, v);
    }
  }

  // A node that keeps its committed prefix and its commit index, in no earlier term.
  lemma CommitLater(w: World, g: Ledger, w': World, g': Ledger, j: int)
    requires j in w.nodes && CommitKnown(w, g, j) && j in w'.nodes && w'.nodes.Keys == w.nodes.Keys
    requires Extends(g, w.past.ledLog, g', w'.past.ledLog)
    requires j in g'.decided && g'.decided[j] == g.decided[j]
    requires w.nodes[j].currentTerm() <= w'.nodes[j].currentTerm()
    requires w'.nodes[j].commitIndex == w.nodes[j].commitIndex
    requires Agree(w'.nodes[j].log, w.nodes[j].log, w.nodes[j].commitIndex + 1)
    ensures CommitKnown(w', g', j)
  {
    var (t, idx) := g.decided[j];
    var terms, terms' := w.past.ledLog, w'.past.ledLog;
    ChosenLater(g, terms, g', terms', w.nodes.Keys, t, idx);
    assert terms'[t][..|terms[t]|] == terms[t];
    assert terms'[t][..w.nodes[j].commitIndex + 1] == terms[t][..w.nodes[j].commitIndex + 1];
  }

  lemma StillCommit(w: World, g: Ledger, st: Step, j: int)
    requires StillStep(w, g, st) && j in w.nodes
    ensures j in Next(w, st).nodes && CommitKnown(Next(w, st), LocalLedger(w, g, st), j)
  {
    StillNode(w, g, st);
    StillExtends(w, g, st);
    assert CommitKnown(w, g, j);
    CommitLater(w, g, Next(w, st), LocalLedger(w, g, st), j);
  }

  // A node that tracks its peers as before, in the same term if it leads.
  lemma MatchLater(n: NodeState, n': NodeState, g: Ledger, g': Ledger)
    requires MatchKnown(n, g) && n'.peers == n.peers && n'.matchIndex == n.matchIndex
    requires n'.Leads() ==> n.Leads() && n'.currentTerm() == n.currentTerm()
    requires forall k <- g.held :: k in g'.held && g.held[k] <= g'.held[k]
    ensures MatchKnown(n', g')
  {
  }

  lemma StillMatch(w: World, g: Ledger, st: Step, j: int)
    requires StillStep(w, g, st) && j in w.nodes
    ensures j in Next(w, st).nodes && MatchKnown(Next(w, st).nodes[j], LocalLedger(w, g, st))
  {
    hide FullInv, Known, LocalLedger, NodeAfter, MatchKnown, Still, SafeCount;
    StillNode(w, g, st);
    NodeIsKnown(w, g, j);
    MatchLater(w.nodes[j], Next(w, st).nodes[j], g, LocalLedger(w, g, st));
  }

  lemma StillReplayed(w: World, g: Ledger, st: Step, j: int)
    requires StillStep(w, g, st) && j in w.nodes
    ensures j in Next(w, st).nodes && Replayed(Next(w, st).nodes[j], AppliedBy(Next(w, st).past, j))
  {
    hide FullInv, Known, LocalLedger, Still, SafeCount, NodeAfter, Replayed;
    StillNode(w, g, st);
    NodeIsKnown(w, g, j);
    if j == Actor(st) && st.Apply? {
      ReplayedNext(w.nodes[j], st, w.past, j);
    } else if j == Actor(st) {
      ReplayedLater(w.nodes[j], Next(w, st).nodes[j], AppliedBy(w.past, j));
    }
  }

  // -----  Votes  -----

  lemma OpenBefore(w: World, g: Ledger, st: Step, c: int, T: int)
    requires StillStep(w, g, st) && c in w.nodes && T <= w.nodes[c].currentTerm()
    ensures w.nodes[c].currentTerm() <= Next(w, st).nodes[c].currentTerm()
    ensures Next(w, st).nodes[c].log == w.nodes[c].log
    ensures Open(Next(w, st), c, T) ==> Open(w, c, T)
  {
    StillNode(w, g, st);
  }

  lemma OldBallot(w: World, g: Ledger, st: Step, v: int, T: int)
    requires StillStep(w, g, st) && (v, T) in g.ballots
    requires (v, T) in Next(w, st).past.votes && Next(w, st).past.votes[(v, T)] == w.past.votes[(v, T)]
    ensures BallotKnown(Next(w, st), LocalLedger(w, g, st), v, T)
  {
    StillNode(w, g, st);
    StillExtends(w, g, st);
    assert BallotKnown(w, g, v, T);
    BallotLater(g, w.past.ledLog, LocalLedger(w, g, st), w.past.ledLog, v, T);
    OpenBefore(w, g, st, w.past.votes[(v, T)], T);
    OpenBefore(w, g, st, v, T);
  }

  // A vote cast now is fair, over exactly the voter's log.
  lemma FreshBallot(w: World, g: Ledger, g': Ledger, v: int, T: int)
    requires Known(w, g) && v in w.nodes && g.source[v] <= T
    requires (v, T) !in g.ballots && g' == g.(ballots := g.ballots[(v, T) := (g.source[v], |w.nodes[v].log|)])
    ensures BallotFair(g', w.past.ledLog, v, T) && BallotLog(g', w.past.ledLog, v, T) == w.nodes[v].log
  {
    assert SourceKnown(w, g, v);
  }

  lemma TimeoutLedger(w: World, g: Ledger, i: int)
    requires Enabled(w, Timeout(i)) && i in g.source
    ensures var t := w.nodes[i].currentTerm() + 1;
            && LocalLedger(w, g, Timeout(i)) == g.(ballots := g.ballots[(i, t) := (g.source[i], |w.nodes[i].log|)])
            && Next(w, Timeout(i)).past.votes == w.past.votes[(i, t) := i]
            && Next(w, Timeout(i)).past.ledLog == w.past.ledLog
            && Next(w, Timeout(i)).nodes == w.nodes[i := BeginElection(w.nodes[i])]
  {
  }

  lemma TimeoutBallot(w: World, g: Ledger, i: int)
    requires StillStep(w, g, Timeout(i))
    ensures BallotKnown(Next(w, Timeout(i)), LocalLedger(w, g, Timeout(i)), i, w.nodes[i].currentTerm() + 1)
  {
    assert SourceKnown(w, g, i);
    TimeoutLedger(w, g, i);
    NextTermUnvoted(w, g, i);
    FreshBallot(w, g, LocalLedger(w, g, Timeout(i)), i, w.nodes[i].currentTerm() + 1);
  }

  lemma TimeoutBallots(w: World, g: Ledger, i: int)
    requires StillStep(w, g, Timeout(i))
    ensures BallotsKnown(Next(w, Timeout(i)), LocalLedger(w, g, Timeout(i)))
  {
    hide FullInv, Structure, SourcesKnown, HeldKnown, NodesKnown, RequestsKnown, BallotKnown, Next, LocalLedger, Still, SafeCount;
    NodeIsKnown(w, g, i);
    var w', g' := Next(w, Timeout(i)), LocalLedger(w, g, Timeout(i));
    TimeoutBallot(w, g, i);
    TimeoutLedger(w, g, i);
    forall v, T | (v, T) in g.ballots && (v, T) != (i, w.nodes[i].currentTerm() + 1) ensures BallotKnown(w', g', v, T) {
      BallotIsKnown(w, g, v, T);
      OldBallot(w, g, Timeout(i), v, T);
    }
  }

  // A granted vote goes to whom the voter already voted for, or is the voter's first of the term.
  lemma RepeatedVote(w: World, v: int, m: Message)
    requires Inv(w) && v in w.nodes && m.VoteRequest? && w.nodes[v].log != []
    requires AnswerVote(w.nodes[v], m).1.granted && (v, m.term) in w.past.votes
    ensures w.past.votes[(v, m.term)] == m.cand
  {
    var p := PollOf(w);
    assert (v, m.term) in p.votes && p.ballots[v] == w.nodes[v].ballot;
    assert NONE !in p.ballots;
  }

  lemma AnswerBallot(w: World, g: Ledger, st: Step)
    requires StillStep(w, g, st) && st.Answer? && AnswerVote(w.nodes[st.m.to], st.m).1.granted
    requires (st.m.to, st.m.term) !in g.ballots
    ensures BallotKnown(Next(w, st), LocalLedger(w, g, st), st.m.to, st.m.term)
  {
    var m := st.m;
    StillNode(w, g, st);
    assert SourceKnown(w, g, m.to);
    FreshBallot(w, g, LocalLedger(w, g, st), m.to, m.term);
    assert RequestKnown(w, m);
    OpenBefore(w, g, st, m.cand, m.term);
  }

  lemma AnswerLedger(w: World, g: Ledger, st: Step)
    requires Enabled(w, st) && Actor(st) in g.source && st.Answer? && AnswerVote(w.nodes[st.m.to], st.m).1.granted
    ensures Next(w, st).past.votes == w.past.votes[(st.m.to, st.m.term) := st.m.cand]
    ensures var at := (st.m.to, st.m.term);
            LocalLedger(w, g, st).ballots == if at in g.ballots then g.ballots
                                             else g.ballots[at := (g.source[st.m.to], |w.nodes[st.m.to].log|)]
  {
  }

  lemma AnswerBallots(w: World, g: Ledger, st: Step)
    requires StillStep(w, g, st) && st.Answer? && AnswerVote(w.nodes[st.m.to], st.m).1.granted
    ensures BallotsKnown(Next(w, st), LocalLedger(w, g, st))
  {
    hide Inv, LogInv, Structure, SourcesKnown, HeldKnown, NodesKnown, RequestsKnown, BallotKnown, Still, SafeCount, NodeAfter, Next,
      AnswerVote, LocalLedger;
    StillNode(w, g, st);
    AnswerLedger(w, g, st);
    var w', g', m := Next(w, st), LocalLedger(w, g, st), st.m;
    forall v, T | (v, T) in g.ballots ensures BallotKnown(w', g', v, T) {
      BallotIsKnown(w, g, v, T);
      if (v, T) == (m.to, m.term) {
        RepeatedVote(w, v, m);
      }
      OldBallot(w, g, st, v, T);
    }
    if (m.to, m.term) !in g.ballots {
      AnswerBallot(w, g, st);
    }
  }

  lemma OtherLedger(w: World, g: Ledger, st: Step)
    requires Enabled(w, st) && Actor(st) in g.source && Still(w.nodes[Actor(st)], st)
    requires !st.Timeout? && !(st.Answer? && AnswerVote(w.nodes[st.m.to], st.m).1.granted)
    ensures Next(w, st).past.votes == w.past.votes && LocalLedger(w, g, st).ballots == g.ballots
  {
    hide NodeAfter, Sent, WinsWith, CountedAfter, LedLogAfter, Applies, AnswerVote;
  }

  lemma StillBallots(w: World, g: Ledger, st: Step)
    requires StillStep(w, g, st)
    ensures BallotsKnown(Next(w, st), LocalLedger(w, g, st))
  {
    hide FullInv, Structure, SourcesKnown, HeldKnown, NodesKnown, RequestsKnown, BallotKnown, Still, SafeCount, NodeAfter,
      Next, LocalLedger;
    StillNode(w, g, st);
    if st.Timeout? {
      assert st == Timeout(st.node);
      TimeoutBallots(w, g, st.node);
    } else if st.Answer? && AnswerVote(w.nodes[st.m.to], st.m).1.granted {
      AnswerBallots(w, g, st);
    } else {
      OtherLedger(w, g, st);
      forall v, T | (v, T) in g.ballots ensures BallotKnown(Next(w, st), LocalLedger(w, g, st), v, T) {
        BallotIsKnown(w, g, v, T);
        OldBallot(w, g, st, v, T);
      }
    }
  }

  lemma StillRequests(w: World, g: Ledger, st: Step)
    requires StillStep(w, g, st)
    ensures RequestsKnown(Next(w, st))
  {
    hide Structure, SourcesKnown, NodesKnown, BallotsKnown, HeldKnown, LocalLedger, LogInv, Still, SafeCount;
    var w' := Next(w, st);
    forall m <- w'.net | m.VoteRequest? ensures RequestKnown(w', m) {
      if m in w.net {
        assert RequestKnown(w, m);
        OpenBefore(w, g, st, m.cand, m.term);
      } else {
        assert TallyExact(PollOf(w), Actor(st));
        assert PollOf(w).ballots[Actor(st)] == w.nodes[Actor(st)].ballot;
      }
    }
  }

  lemma StillKnown(w: World, g: Ledger, st: Step)
    requires StillStep(w, g, st)
    ensures Known(Next(w, st), LocalLedger(w, g, st))
  {
    StillNode(w, g, st);
    StillStructure(w, g, st);
    StillSources(w, g, st);
    StillBallots(w, g, st);
    StillRequests(w, g, st);
    forall j <- Next(w, st).nodes
      ensures MatchKnown(Next(w, st).nodes[j], LocalLedger(w, g, st)) && CommitKnown(Next(w, st), LocalLedger(w, g, st), j)
           && Replayed(Next(w, st).nodes[j], AppliedBy(Next(w, st).past, j)) {
      StillMatch(w, g, st, j);
      StillCommit(w, g, st, j);
      StillReplayed(w, g, st, j);
    }
  }

  // -----  Steps that change a log  -----

  // Terms do not fall, and whoever still stands for an unled term stood for it with the same log.
  ghost predicate StandsStill(w: World, w': World) {
    && w'.nodes.Keys == w.nodes.Keys
    && (forall c <- w.nodes :: w.nodes[c].currentTerm() <= w'.nodes[c].currentTerm())
    && (forall c, T :: c in w.nodes && T <= w.nodes[c].currentTerm() && Open(w', c, T) ==>
          Open(w, c, T) && w'.nodes[c].log == w.nodes[c].log)
  }

  lemma BallotsLater(w: World, g: Ledger, w': World, g': Ledger)
    requires BallotsKnown(w, g) && StandsStill(w, w')
    requires Extends(g, w.past.ledLog, g', w'.past.ledLog)
    requires w'.past.votes == w.past.votes && g'.ballots == g.ballots
    ensures BallotsKnown(w', g')
  {
    forall v, T | (v, T) in g.ballots ensures BallotKnown(w', g', v, T) {
      assert BallotKnown(w, g, v, T);
      BallotLater(g, w.past.ledLog, g', w'.past.ledLog, v, T);
    }
  }

  lemma RequestsLater(w: World, w': World)
    requires RequestsKnown(w) && StandsStill(w, w')
    requires forall m <- w'.net :: m in w.net || !m.VoteRequest?
    ensures RequestsKnown(w')
  {
    forall m <- w'.net ensures RequestKnown(w', m) {
      if m in w.net {
        assert RequestKnown(w, m);
      }
    }
  }

  lemma OldBacked(g: Ledger, terms: TermLogs, g': Ledger, terms': TermLogs, nodes: set<int>, T: int)
    requires AllBacked(g, terms, nodes) && Extends(g, terms, g', terms')
    requires T in terms && T > 0 && T in g'.backers && g'.backers[T] == g.backers[T]
    ensures forall v <- g'.backers[T] :: Backs(g', terms', v, T)
  {
    forall v <- g'.backers[T] ensures Backs(g', terms', v, T) {
      BacksLater(g, terms, g', terms', v, T);
    }
  }

  // Node i may change; all others are as they were.
  ghost predicate OnlyNode(w: World, w': World, i: int) {
    i in w.nodes && i in w'.nodes && w'.nodes == w.nodes[i := w'.nodes[i]]
  }

  // The node keeps what it has committed and applied.
  predicate KeepsCommit(n: NodeState, n': NodeState) {
    n'.commitIndex == n.commitIndex && n'.lastApplied == n.lastApplied && n'.groups == n.groups && n'.peers == n.peers
  }

  // Node i, elected by the given voters, becomes leader of its term t, which is new.
  ghost predicate WinDelta(w: World, g: Ledger, w': World, g': Ledger, i: int, t: int, voters: set<int>) {
    && OnlyNode(w, w', i)
    && var n, n' := w.nodes[i], w'.nodes[i];
    && n.currentTerm() == t && t > 0 && t !in w.past.ledLog
    && KeepsCommit(n, n') && n'.log == n.log && n'.currentTerm() == t && n'.matchIndex == Reset(n.matchIndex, n.peers, 0)
    && w'.past.ledLog == w.past.ledLog[t := n.log]
    && w'.past.votes == w.past.votes && w'.past.applied == w.past.applied && w'.net == w.net
    && g' == g.(base := g.base[t := |n.log|], source := g.source[i := t], held := g.held[(i, t) := |n.log|],
                backers := g.backers[t := voters])
    && Winning(|voters|, |w.nodes.Keys|) && voters <= w.nodes.Keys
    && forall v <- voters :: (v, t) in w.past.votes && w.past.votes[(v, t)] == i
  }

  lemma WinNode(n: NodeState, st: Step)
    requires Can(n, st) && Wins(n, st)
    ensures var n' := NodeAfter(n, st);
            && KeepsCommit(n, n') && n'.log == n.log && n'.currentTerm() == n.currentTerm()
            && n'.matchIndex == Reset(n.matchIndex, n.peers, 0)
    ensures Sent(n, st) == {}
  {
  }

  // Whoever led a term was elected by the votes counted for it.
  lemma LedVoters(w: World, t: int, c: int)
    requires Inv(w) && (t, c) in w.past.led
    ensures var voters := Voters(w.past.counted, c, t);
            && Winning(|voters|, |w.nodes.Keys|) && voters <= w.nodes.Keys
            && forall v <- voters :: (v, t) in w.past.votes && w.past.votes[(v, t)] == c
  {
    hide TalliesExact, MessagesRecorded;
    var p := PollOf(w);
    assert p.ballots.Keys == w.nodes.Keys && |p.ballots| == |p.ballots.Keys|;
    forall v <- Voters(p.counted, c, t) ensures v in w.nodes.Keys {
      assert (v, t) in p.votes;
    }
  }

  lemma WinVoters(w: World, st: Step)
    requires FullInv(w) && Enabled(w, st) && SafeCount(w, st) && Wins(w.nodes[Actor(st)], st)
    ensures var t := w.nodes[Actor(st)].ballot.election.term;
            var voters := Voters(Next(w, st).past.counted, Actor(st), t);
            && Winning(|voters|, |w.nodes.Keys|) && voters <= w.nodes.Keys
            && forall v <- voters :: (v, t) in w.past.votes && w.past.votes[(v, t)] == Actor(st)
  {
    hide PollInv, LogInv, NodeAfter, Winning;
    var w', i := Next(w, st), Actor(st);
    var t := w.nodes[i].ballot.election.term;
    InvStep(w, st);
    WellFormedStep(w, st);
    LedVoters(w', t, i);
  }

  lemma WinIsDelta(w: World, g: Ledger, st: Step)
    requires FullInv(w) && Enabled(w, st) && SafeCount(w, st) && Wins(w.nodes[Actor(st)], st)
    requires Actor(st) in g.source
    ensures var t := w.nodes[Actor(st)].currentTerm();
            WinDelta(w, g, Next(w, st), LocalLedger(w, g, st), Actor(st), t,
                     Voters(Next(w, st).past.counted, Actor(st), t))
  {
    hide FullInv, NodeAfter, Voters;
    WonTermIsNew(w, st);
    WinNode(w.nodes[Actor(st)], st);
    WinVoters(w, st);
  }

  lemma WinExtends(w: World, g: Ledger, w': World, g': Ledger, i: int, t: int, voters: set<int>)
    requires Known(w, g) && WinDelta(w, g, w', g', i, t, voters)
    ensures Extends(g, w.past.ledLog, g', w'.past.ledLog) && (i, t) !in g.held
  {
    hide Structure, SourcesKnown, RequestsKnown, NodesKnown, BallotKnown;
    NodeIsKnown(w, g, i);
    assert (i, t) !in g.held;
    forall T | (i, T) in g.ballots ensures T <= t {
      BallotIsKnown(w, g, i, T);
    }
  }

  // The winner's log has only entries of earlier terms.
  lemma WinShape(w: World, g: Ledger, w': World, g': Ledger, i: int, t: int, voters: set<int>)
    requires Known(w, g) && WinDelta(w, g, w', g', i, t, voters) && Rooted(w.nodes[i].log, w.past.ledLog)
    ensures TermShape(t, w.nodes[i].log, |w.nodes[i].log|)
  {
    var log, terms, s := w.nodes[i].log, w.past.ledLog, g.source[i];
    assert SourceKnown(w, g, i);
    assert TermShape(s, terms[s], g.base[s]);
    forall k | 0 <= k < |log| ensures log[k].term < t {
      assert EntryRooted(log, k, terms);
      assert log[k] == terms[s][k];
    }
  }

  // A voter of the winner backs it.
  lemma WinBacked(w: World, g: Ledger, w': World, g': Ledger, i: int, t: int, voters: set<int>, v: int)
    requires Known(w, g) && WinDelta(w, g, w', g', i, t, voters) && v in voters
    ensures Backs(g', w'.past.ledLog, v, t)
  {
    WinExtends(w, g, w', g', i, t, voters);
    assert BallotKnown(w, g, v, t) && Open(w, i, t);
    BallotLater(g, w.past.ledLog, g', w'.past.ledLog, v, t);
    WholeSlice(w.nodes[i].log);
  }

  lemma WholeSlice(log: Log)
    ensures log[..|log|] == log
  {
  }

  lemma WinAllBacked(w: World, g: Ledger, w': World, g': Ledger, i: int, t: int, voters: set<int>)
    requires Known(w, g) && WinDelta(w, g, w', g', i, t, voters)
    ensures AllBacked(g', w'.past.ledLog, w.nodes.Keys)
  {
    hide TermLogsRooted, Shapes, HeldSound, SourcesKnown, HeldKnown, BallotsKnown, RequestsKnown, NodesKnown, Backs, Extends;
    WinExtends(w, g, w', g', i, t, voters);
    forall v <- voters ensures Backs(g', w'.past.ledLog, v, t) {
      WinBacked(w, g, w', g', i, t, voters, v);
    }
    forall T <- w.past.ledLog | T > 0 ensures forall v <- g'.backers[T] :: Backs(g', w'.past.ledLog, v, T) {
      OldBacked(g, w.past.ledLog, g', w'.past.ledLog, w.nodes.Keys, T);
    }
  }

  lemma WinSource(w: World, g: Ledger, w': World, g': Ledger, i: int, t: int, voters: set<int>, v: int)
    requires WinDelta(w, g, w', g', i, t, voters) && v in w.nodes && SourceKnown(w, g, v)
    requires w.nodes[v].Leads() ==> w.nodes[v].currentTerm() in w.past.ledLog
    ensures SourceKnown(w', g', v)
  {
    var log := w.nodes[i].log;
    assert log[..|log|] == log;
  }

  lemma WinSources(w: World, g: Ledger, w': World, g': Ledger, i: int, t: int, voters: set<int>)
    requires Known(w, g) && WinDelta(w, g, w', g', i, t, voters)
    requires forall j <- w.nodes :: w.nodes[j].Leads() ==> w.nodes[j].currentTerm() in w.past.ledLog
    ensures SourcesKnown(w', g') && HeldKnown(w', g')
  {
    hide Structure, BallotsKnown, RequestsKnown, NodesKnown;
    forall v <- w'.nodes ensures SourceKnown(w', g', v) {
      assert SourceKnown(w, g, v);
      WinSource(w, g, w', g', i, t, voters, v);
    }
    assert SourceKnown(w, g, i);
  }

  lemma WinCommit(w: World, g: Ledger, w': World, g': Ledger, i: int, t: int, voters: set<int>, j: int)
    requires Known(w, g) && WinDelta(w, g, w', g', i, t, voters) && j in w.nodes
    ensures CommitKnown(w', g', j)
  {
    hide Structure, SourcesKnown, HeldKnown, BallotsKnown, RequestsKnown, NodesKnown, Decided, Extends;
    WinExtends(w, g, w', g', i, t, voters);
    NodeIsKnown(w, g, j);
    CommitLater(w, g, w', g', j);
  }

  lemma WinMatch(w: World, g: Ledger, w': World, g': Ledger, i: int, t: int, voters: set<int>, j: int)
    requires WinDelta(w, g, w', g', i, t, voters) && j in w.nodes && MatchKnown(w.nodes[j], g) && (i, t) !in g.held
    ensures MatchKnown(w'.nodes[j], g')
  {
  }

  lemma WinNodes(w: World, g: Ledger, w': World, g': Ledger, i: int, t: int, voters: set<int>)
    requires Known(w, g) && WinDelta(w, g, w', g', i, t, voters)
    ensures NodesKnown(w', g')
  {
    hide Structure, SourcesKnown, HeldKnown, BallotsKnown, RequestsKnown, MatchKnown, CommitKnown, Extends;
    WinExtends(w, g, w', g', i, t, voters);
    forall j <- w'.nodes
      ensures MatchKnown(w'.nodes[j], g') && CommitKnown(w', g', j) && Replayed(w'.nodes[j], AppliedBy(w'.past, j)) {
      NodeIsKnown(w, g, j);
      WinMatch(w, g, w', g', i, t, voters, j);
      WinCommit(w, g, w', g', i, t, voters, j);
    }
  }

  lemma WinVotes(w: World, g: Ledger, w': World, g': Ledger, i: int, t: int, voters: set<int>)
    requires Known(w, g) && WinDelta(w, g, w', g', i, t, voters)
    ensures BallotsKnown(w', g') && RequestsKnown(w')
  {
    hide Structure, SourcesKnown, HeldKnown, BallotsKnown, RequestsKnown, NodesKnown, Extends;
    WinExtends(w, g, w', g', i, t, voters);
    assert w'.nodes.Keys == w.nodes.Keys;
    BallotsLater(w, g, w', g');
    RequestsLater(w, w');
  }

  lemma WinStructure(w: World, g: Ledger, w': World, g': Ledger, i: int, t: int, voters: set<int>)
    requires Known(w, g) && WinDelta(w, g, w', g', i, t, voters)
    requires Rooted(w.nodes[i].log, w.past.ledLog) && TermLogsRooted(w'.past.ledLog)
    ensures Structure(g', w'.past.ledLog, w'.nodes.Keys)
  {
    hide SourcesKnown, HeldKnown, BallotsKnown, RequestsKnown, NodesKnown, AllBacked, TermShape, TermLogsRooted;
    WinShape(w, g, w', g', i, t, voters);
    WinAllBacked(w, g, w', g', i, t, voters);
    assert w'.nodes.Keys == w.nodes.Keys;
  }

  lemma WinKnown(w: World, g: Ledger, w': World, g': Ledger, i: int, t: int, voters: set<int>)
    requires Known(w, g) && WinDelta(w, g, w', g', i, t, voters)
    requires LogInv(w) && TermLogsRooted(w'.past.ledLog)
    ensures Known(w', g')
  {
    assert forall j <- w.nodes :: LeaderCurrent(w, j);
    WinStructure(w, g, w', g', i, t, voters);
    WinSources(w, g, w', g', i, t, voters);
    WinNodes(w, g, w', g', i, t, voters);
    WinVotes(w, g, w', g', i, t, voters);
  }

  // Leader i of term t appends one entry of its own term.
  ghost predicate GrowDelta(w: World, g: Ledger, w': World, g': Ledger, i: int, t: int, longer: Log) {
    && OnlyNode(w, w', i)
    && var n, n' := w.nodes[i], w'.nodes[i];
    && n.Leads() && n'.Leads() && n.currentTerm() == t == n'.currentTerm()
    && KeepsCommit(n, n') && n'.matchIndex == n.matchIndex
    && t in w.past.ledLog && w.past.ledLog[t] == n.log && n'.log == longer
    && |longer| == |n.log| + 1 && longer[..|n.log|] == n.log && longer[|n.log|].term == t
    && w'.past.ledLog == w.past.ledLog[t := longer]
    && w'.past.votes == w.past.votes && w'.past.applied == w.past.applied && w'.net == w.net
    && g' == g.(held := g.held[(i, t) := |longer|])
  }

  lemma TakeIsDelta(w: World, g: Ledger, st: Step)
    requires FullInv(w) && Enabled(w, st) && TimelyTake(w, st) && st.Take? && w.nodes[Actor(st)].Leads()
    requires Actor(st) in g.source
    ensures GrowDelta(w, g, Next(w, st), LocalLedger(w, g, st), Actor(st), w.nodes[Actor(st)].currentTerm(),
                      Next(w, st).nodes[Actor(st)].log)
  {
    assert LeaderCurrent(w, Actor(st));
  }

  lemma GrowExtends(w: World, g: Ledger, w': World, g': Ledger, i: int, t: int, longer: Log)
    requires Known(w, g) && GrowDelta(w, g, w', g', i, t, longer)
    ensures Extends(g, w.past.ledLog, g', w'.past.ledLog)
  {
    hide Structure, HeldKnown, RequestsKnown, NodesKnown, BallotKnown;
    NodeIsKnown(w, g, i);
    forall T | (i, T) in g.ballots ensures T <= t {
      BallotIsKnown(w, g, i, T);
    }
  }

  lemma GrowBacked(w: World, g: Ledger, w': World, g': Ledger, i: int, t: int, longer: Log)
    requires Known(w, g) && GrowDelta(w, g, w', g', i, t, longer)
    ensures AllBacked(g', w'.past.ledLog, w.nodes.Keys)
  {
    hide TermLogsRooted, Shapes, HeldSound, SourcesKnown, HeldKnown, BallotsKnown, RequestsKnown, NodesKnown, Backs, Extends;
    GrowExtends(w, g, w', g', i, t, longer);
    forall T <- w.past.ledLog | T > 0 ensures forall v <- g'.backers[T] :: Backs(g', w'.past.ledLog, v, T) {
      OldBacked(g, w.past.ledLog, g', w'.past.ledLog, w.nodes.Keys, T);
    }
  }

  lemma ShapeLater(t: int, log: Log, longer: Log, base: int)
    requires TermShape(t, log, base) && t > 0
    requires |longer| == |log| + 1 && longer[..|log|] == log && longer[|log|].term == t
    ensures TermShape(t, longer, base)
  {
    assert forall k :: 0 <= k < |log| ==> longer[k] == log[k];
  }

  lemma GrowStructure(w: World, g: Ledger, w': World, g': Ledger, i: int, t: int, longer: Log)
    requires Known(w, g) && GrowDelta(w, g, w', g', i, t, longer) && TermLogsRooted(w'.past.ledLog) && t > 0
    ensures Structure(g', w'.past.ledLog, w'.nodes.Keys)
  {
    hide SourcesKnown, HeldKnown, BallotsKnown, RequestsKnown, NodesKnown, AllBacked, TermShape, TermLogsRooted;
    ShapeLater(t, w.past.ledLog[t], longer, g.base[t]);
    GrowBacked(w, g, w', g', i, t, longer);
    assert w'.nodes.Keys == w.nodes.Keys;
  }

  lemma CopyLater(log: Log, s: int, terms: TermLogs, base: map<int, int>, t: int, longer: Log)
    requires CopyOf(log, s, terms, base) && t in terms && terms[t] <= longer
    ensures CopyOf(log, s, terms[t := longer], base)
  {
    assert longer[..|terms[t]|] == terms[t];
  }

  lemma GrowSource(w: World, g: Ledger, w': World, g': Ledger, i: int, t: int, longer: Log, v: int)
    requires Known(w, g) && GrowDelta(w, g, w', g', i, t, longer) && v in w.nodes
    ensures SourceKnown(w', g', v)
  {
    hide Structure, SourcesKnown, HeldKnown, BallotsKnown, RequestsKnown, NodesKnown;
    NodeIsKnown(w, g, v);
    CopyLater(w.nodes[v].log, g.source[v], w.past.ledLog, g.base, t, longer);
    assert longer[..|longer|] == longer;
  }

  lemma GrowSources(w: World, g: Ledger, w': World, g': Ledger, i: int, t: int, longer: Log)
    requires Known(w, g) && GrowDelta(w, g, w', g', i, t, longer)
    ensures SourcesKnown(w', g') && HeldKnown(w', g')
  {
    hide Structure, BallotsKnown, RequestsKnown, NodesKnown, CopyOf;
    forall v <- w'.nodes ensures SourceKnown(w', g', v) {
      GrowSource(w, g, w', g', i, t, longer, v);
    }
    NodeIsKnown(w, g, i);
  }

  lemma GrowCommit(w: World, g: Ledger, w': World, g': Ledger, i: int, t: int, longer: Log, j: int)
    requires Known(w, g) && GrowDelta(w, g, w', g', i, t, longer) && j in w.nodes
    ensures CommitKnown(w', g', j)
  {
    hide Structure, SourcesKnown, HeldKnown, BallotsKnown, RequestsKnown, NodesKnown, Decided, Extends;
    GrowExtends(w, g, w', g', i, t, longer);
    NodeIsKnown(w, g, j);
    assert Agree(longer, w.nodes[i].log, |w.nodes[i].log|);
    if j == i {
      AgreeShorter(longer, w.nodes[i].log, |w.nodes[i].log|, w.nodes[i].commitIndex + 1);
    }
    CommitLater(w, g, w', g', j);
  }

  lemma GrowNodes(w: World, g: Ledger, w': World, g': Ledger, i: int, t: int, longer: Log)
    requires Known(w, g) && GrowDelta(w, g, w', g', i, t, longer)
    ensures NodesKnown(w', g')
  {
    hide Structure, SourcesKnown, HeldKnown, BallotsKnown, RequestsKnown, MatchKnown, CommitKnown;
    GrowExtends(w, g, w', g', i, t, longer);
    forall j <- w'.nodes
      ensures MatchKnown(w'.nodes[j], g') && CommitKnown(w', g', j) && Replayed(w'.nodes[j], AppliedBy(w'.past, j)) {
      NodeIsKnown(w, g, j);
      MatchLater(w.nodes[j], w'.nodes[j], g, g');
      ReplayedLater(w.nodes[j], w'.nodes[j], AppliedBy(w.past, j));
      GrowCommit(w, g, w', g', i, t, longer, j);
    }
  }

  lemma GrowKnown(w: World, g: Ledger, w': World, g': Ledger, i: int, t: int, longer: Log)
    requires Known(w, g) && GrowDelta(w, g, w', g', i, t, longer) && TermLogsRooted(w'.past.ledLog) && t > 0
    ensures Known(w', g')
  {
    hide Structure, SourcesKnown, HeldKnown, BallotsKnown, RequestsKnown, NodesKnown, Extends;
    GrowStructure(w, g, w', g', i, t, longer);
    GrowSources(w, g, w', g', i, t, longer);
    GrowNodes(w, g, w', g', i, t, longer);
    GrowExtends(w, g, w', g', i, t, longer);
    assert w'.nodes.Keys == w.nodes.Keys;
    BallotsLater(w, g, w', g');
    RequestsLater(w, w');
  }

  // -----  Exchanges  -----

  // The node changes, but not its log, commits or beliefs; it may have stepped down.
  predicate QuietNode(n: NodeState, n': NodeState) {
    && KeepsCommit(n, n') && n'.log == n.log && n'.matchIndex == n.matchIndex
    && n.currentTerm() <= n'.currentTerm()
    && (n'.Leads() ==> n.Leads() && n'.currentTerm() == n.currentTerm())
  }

  ghost predicate QuietDelta(w: World, w': World, i: int) {
    && OnlyNode(w, w', i) && w'.past == w.past
    && QuietNode(w.nodes[i], w'.nodes[i])
    && forall m <- w'.net :: m in w.net || !m.VoteRequest?
  }

  lemma SameLedgerExtends(g: Ledger, terms: TermLogs)
    ensures Extends(g, terms, g, terms)
  {
  }

  // Node i changes without touching its log; it may have stepped down.
  ghost predicate SameLogs(w: World, w': World, i: int) {
    && OnlyNode(w, w', i) && w'.past == w.past
    && w'.nodes[i].log == w.nodes[i].log && w.nodes[i].currentTerm() <= w'.nodes[i].currentTerm()
    && (w'.nodes[i].Leads() ==> w.nodes[i].Leads() && w'.nodes[i].currentTerm() == w.nodes[i].currentTerm())
    && forall m <- w'.net :: m in w.net || !m.VoteRequest?
  }

  lemma SameLogsVotes(w: World, g: Ledger, w': World, g': Ledger, i: int)
    requires Known(w, g) && SameLogs(w, w', i) && g' == g.(decided := g'.decided)
    ensures BallotsKnown(w', g') && RequestsKnown(w')
    ensures AllBacked(g', w'.past.ledLog, w.nodes.Keys)
  {
    hide TermLogsRooted, Shapes, HeldSound, SourcesKnown, HeldKnown, BallotsKnown, RequestsKnown, NodesKnown, Backs;
    assert w'.nodes.Keys == w.nodes.Keys;
    assert Extends(g, w.past.ledLog, g', w.past.ledLog);
    BallotsLater(w, g, w', g');
    RequestsLater(w, w');
    forall T <- w.past.ledLog | T > 0 ensures forall v <- g'.backers[T] :: Backs(g', w.past.ledLog, v, T) {
      OldBacked(g, w.past.ledLog, g', w.past.ledLog, w.nodes.Keys, T);
    }
  }

  lemma SameLogsKnown(w: World, g: Ledger, w': World, g': Ledger, i: int)
    requires Known(w, g) && SameLogs(w, w', i) && g' == g.(decided := g'.decided)
    requires NodesKnown(w', g')
    ensures Known(w', g')
  {
    hide AllBacked, TermLogsRooted, Shapes, BallotsKnown, RequestsKnown, CopyOf, NodesKnown;
    assert w'.nodes.Keys == w.nodes.Keys;
    SameLogsVotes(w, g, w', g', i);
    forall v <- w'.nodes ensures SourceKnown(w', g', v) {
      assert SourceKnown(w, g, v);
    }
  }

  lemma QuietKnown(w: World, g: Ledger, w': World, i: int)
    requires Known(w, g) && QuietDelta(w, w', i)
    ensures Known(w', g)
  {
    QuietNodes(w, g, w', i);
    SameLogsKnown(w, g, w', g, i);
  }

  lemma QuietNodes(w: World, g: Ledger, w': World, i: int)
    requires Known(w, g) && QuietDelta(w, w', i)
    ensures NodesKnown(w', g)
  {
    SameLedgerExtends(g, w.past.ledLog);
    forall j <- w'.nodes
      ensures MatchKnown(w'.nodes[j], g) && CommitKnown(w', g, j) && Replayed(w'.nodes[j], AppliedBy(w'.past, j)) {
      assert MatchKnown(w.nodes[j], g) && CommitKnown(w, g, j) && Replayed(w.nodes[j], AppliedBy(w.past, j));
      CommitLater(w, g, w', g, j);
    }
  }

  // Peer p takes over the whole log of l, the leader of term t, and follows its commit index.
  ghost predicate CopyDelta(w: World, g: Ledger, w': World, g': Ledger, l: int, p: int, t: int) {
    && OnlyNode(w, w', p) && w'.past == w.past && w'.net == w.net
    && l in w.nodes && l != p && w.nodes[l].currentTerm() == t
    && t in w.past.ledLog && w.past.ledLog[t] == w.nodes[l].log
    && p in g.decided && l in g.decided
    && var n, n' := w.nodes[p], w'.nodes[p];
    && n.currentTerm() <= t && n'.currentTerm() == t && !n'.Leads()
    && n'.log == w.nodes[l].log && n'.peers == n.peers && n'.matchIndex == n.matchIndex
    && n'.lastApplied == n.lastApplied && n'.groups == n.groups
    && n'.commitIndex == (if w.nodes[l].commitIndex > n.commitIndex then w.nodes[l].commitIndex else n.commitIndex)
    && g' == g.(source := g.source[p := t], held := g.held[(p, t) := |w.nodes[l].log|],
                decided := if n'.commitIndex != n.commitIndex then g.decided[p := g.decided[l]] else g.decided)
  }

  lemma CopyExtends(w: World, g: Ledger, w': World, g': Ledger, l: int, p: int, t: int)
    requires Known(w, g) && CopyDelta(w, g, w', g', l, p, t)
    ensures Extends(g, w.past.ledLog, g', w.past.ledLog)
  {
    hide TermLogsRooted, Shapes, AllBacked, SourcesKnown, HeldKnown, RequestsKnown, NodesKnown, BallotKnown;
    forall T | (p, T) in g.ballots ensures T <= t {
      BallotIsKnown(w, g, p, T);
    }
  }

  lemma CopyStructure(w: World, g: Ledger, w': World, g': Ledger, l: int, p: int, t: int)
    requires Known(w, g) && CopyDelta(w, g, w', g', l, p, t)
    ensures Structure(g', w.past.ledLog, w.nodes.Keys)
  {
    hide TermLogsRooted, Shapes, SourcesKnown, HeldKnown, BallotsKnown, RequestsKnown, NodesKnown, Backs, Extends;
    CopyExtends(w, g, w', g', l, p, t);
    forall T <- w.past.ledLog | T > 0 ensures forall v <- g'.backers[T] :: Backs(g', w.past.ledLog, v, T) {
      OldBacked(g, w.past.ledLog, g', w.past.ledLog, w.nodes.Keys, T);
    }
  }

  lemma CopySource(w: World, g: Ledger, w': World, g': Ledger, l: int, p: int, t: int, v: int)
    requires Known(w, g) && CopyDelta(w, g, w', g', l, p, t) && v in w.nodes
    ensures SourceKnown(w', g', v)
  {
    hide TermLogsRooted, HeldSound, AllBacked, SourcesKnown, HeldKnown, BallotsKnown, RequestsKnown, NodesKnown;
    var log := w.nodes[l].log;
    assert log[..|log|] == log;
    assert TermShape(t, log, g.base[t]);
    NodeIsKnown(w, g, v);
  }

  lemma CopySources(w: World, g: Ledger, w': World, g': Ledger, l: int, p: int, t: int)
    requires Known(w, g) && CopyDelta(w, g, w', g', l, p, t)
    ensures SourcesKnown(w', g') && HeldKnown(w', g')
  {
    hide Structure, BallotsKnown, RequestsKnown, NodesKnown, CopyOf;
    NodeIsKnown(w, g, p);
    forall v <- w'.nodes ensures SourceKnown(w', g', v) {
      CopySource(w, g, w', g', l, p, t, v);
    }
  }

  // A decided prefix is part of every later term's log.
  lemma DecidedInTerm(g: Ledger, terms: TermLogs, nodes: set<int>, t: int, idx: int, T: int)
    requires Structure(g, terms, nodes) && SafeSize(|nodes|) && Decided(g, terms, nodes, t, idx)
    requires t <= T && T in terms
    ensures t in terms && Agree(terms[T], terms[t], idx + 1)
  {
    if t == 0 && idx == 0 {
      assert WellIndexed(terms[0]) && WellIndexed(terms[T]);
      assert terms[T][..1] == terms[0][..1];
    } else if t < T {
      LeaderCompleteness(g, terms, nodes, t, idx, T);
    }
  }

  // The node's committed prefix stems from a decision no later than its term.
  lemma CommitFrom(w: World, g: Ledger, i: int)
    requires Known(w, g) && i in w.nodes
    ensures i in g.decided
    ensures var (t, idx) := g.decided[i];
            && Decided(g, w.past.ledLog, w.nodes.Keys, t, idx) && t <= w.nodes[i].currentTerm()
            && 0 <= w.nodes[i].commitIndex <= idx
            && Agree(w.nodes[i].log, w.past.ledLog[t], w.nodes[i].commitIndex + 1)
    ensures Replayed(w.nodes[i], AppliedBy(w.past, i))
  {
    hide Structure, SourcesKnown, HeldKnown, BallotsKnown, RequestsKnown, NodesKnown;
    NodeIsKnown(w, g, i);
  }

  // The peer's committed prefix is in the leader's log.
  lemma CommittedInLeader(w: World, g: Ledger, l: int, p: int, t: int)
    requires Known(w, g) && SafeSize(|w.nodes|) && l in w.nodes && p in w.nodes
    requires t in w.past.ledLog && w.past.ledLog[t] == w.nodes[l].log && w.nodes[p].currentTerm() <= t
    ensures Agree(w.nodes[l].log, w.nodes[p].log, w.nodes[p].commitIndex + 1)
  {
    var terms, c := w.past.ledLog, w.nodes[p].commitIndex + 1;
    CommitFrom(w, g, p);
    var (u, idx) := g.decided[p];
    assert |w.nodes.Keys| == |w.nodes|;
    DecidedInTerm(g, terms, w.nodes.Keys, u, idx, t);
    AgreeShorter(terms[t], terms[u], idx + 1, c);
  }

  lemma CopyReplayed(n: NodeState, n': NodeState, applied: Log)
    requires Replayed(n, applied) && Agree(n'.log, n.log, n.commitIndex + 1)
    requires n'.lastApplied == n.lastApplied && n'.groups == n.groups
    requires n.commitIndex <= n'.commitIndex < |n'.log|
    ensures Replayed(n', applied)
  {
    var common := n.log[..n.commitIndex + 1];
    SliceOfPrefix(n'.log, common, 1, n.lastApplied + 1);
    SliceOfPrefix(n.log, common, 1, n.lastApplied + 1);
  }

  lemma CopyApplied(w: World, g: Ledger, w': World, g': Ledger, l: int, p: int, t: int)
    requires Known(w, g) && SafeSize(|w.nodes|) && CopyDelta(w, g, w', g', l, p, t)
    ensures Replayed(w'.nodes[p], AppliedBy(w'.past, p))
    ensures Agree(w'.nodes[p].log, w.nodes[p].log, w.nodes[p].commitIndex + 1)
  {
    hide Structure, SourcesKnown, HeldKnown, BallotsKnown, RequestsKnown, NodesKnown, CommitKnown, MatchKnown, SourceKnown;
    CommittedInLeader(w, g, l, p, t);
    NodeIsKnown(w, g, p);
    NodeIsKnown(w, g, l);
    CopyReplayed(w.nodes[p], w'.nodes[p], AppliedBy(w.past, p));
  }

  lemma CopyCommit(w: World, g: Ledger, w': World, g': Ledger, l: int, p: int, t: int)
    requires Known(w, g) && CopyDelta(w, g, w', g', l, p, t)
    requires Agree(w'.nodes[p].log, w.nodes[p].log, w.nodes[p].commitIndex + 1)
    ensures CommitKnown(w', g', p)
  {
    hide Structure, SourcesKnown, HeldKnown, BallotsKnown, RequestsKnown, NodesKnown, Decided, Extends, Replayed;
    CopyExtends(w, g, w', g', l, p, t);
    NodeIsKnown(w, g, p);
    NodeIsKnown(w, g, l);
    assert w'.nodes.Keys == w.nodes.Keys;
    if w'.nodes[p].commitIndex == w.nodes[p].commitIndex {
      CommitLater(w, g, w', g', p);
    } else {
      ChosenLater(g, w.past.ledLog, g', w.past.ledLog, w.nodes.Keys, g.decided[l].0, g.decided[l].1);
    }
  }

  lemma CopyOther(w: World, g: Ledger, w': World, g': Ledger, l: int, p: int, t: int, j: int)
    requires Known(w, g) && CopyDelta(w, g, w', g', l, p, t) && j in w.nodes && j != p
    ensures CommitKnown(w', g', j) && Replayed(w'.nodes[j], AppliedBy(w'.past, j))
  {
    hide Structure, SourcesKnown, HeldKnown, BallotsKnown, RequestsKnown, NodesKnown, Decided, Extends, Replayed;
    CopyExtends(w, g, w', g', l, p, t);
    NodeIsKnown(w, g, j);
    assert w'.nodes.Keys == w.nodes.Keys;
    CommitLater(w, g, w', g', j);
  }

  lemma CopyNodes(w: World, g: Ledger, w': World, g': Ledger, l: int, p: int, t: int)
    requires Known(w, g) && SafeSize(|w.nodes|) && CopyDelta(w, g, w', g', l, p, t)
    ensures NodesKnown(w', g')
  {
    hide Structure, SourcesKnown, HeldKnown, BallotsKnown, RequestsKnown, Replayed, CommitKnown, MatchKnown;
    CopyExtends(w, g, w', g', l, p, t);
    CopyApplied(w, g, w', g', l, p, t);
    CopyCommit(w, g, w', g', l, p, t);
    forall j <- w'.nodes
      ensures MatchKnown(w'.nodes[j], g') && CommitKnown(w', g', j) && Replayed(w'.nodes[j], AppliedBy(w'.past, j)) {
      NodeIsKnown(w, g, j);
      MatchLater(w.nodes[j], w'.nodes[j], g, g');
      if j != p {
        CopyOther(w, g, w', g', l, p, t, j);
      }
    }
  }

  lemma CopyVotes(w: World, g: Ledger, w': World, g': Ledger, l: int, p: int, t: int)
    requires Known(w, g) && CopyDelta(w, g, w', g', l, p, t)
    ensures BallotsKnown(w', g') && RequestsKnown(w')
  {
    hide Structure, SourcesKnown, HeldKnown, BallotsKnown, RequestsKnown, NodesKnown, Extends;
    CopyExtends(w, g, w', g', l, p, t);
    assert w'.nodes.Keys == w.nodes.Keys;
    BallotsLater(w, g, w', g');
    RequestsLater(w, w');
  }

  lemma CopyKnown(w: World, g: Ledger, w': World, g': Ledger, l: int, p: int, t: int)
    requires Known(w, g) && SafeSize(|w.nodes|) && CopyDelta(w, g, w', g', l, p, t)
    ensures Known(w', g')
  {
    assert w'.nodes.Keys == w.nodes.Keys;
    CopyStructure(w, g, w', g', l, p, t);
    CopySources(w, g, w', g', l, p, t);
    CopyNodes(w, g, w', g', l, p, t);
    CopyVotes(w, g, w', g', l, p, t);
  }

  // Leader l learns that peer p has its whole log, and commits what it can.
  ghost predicate MovedDelta(w: World, g: Ledger, w': World, g': Ledger, l: int, p: int) {
    && OnlyNode(w, w', l) && w'.past == w.past
    && (forall m <- w'.net :: m in w.net || !m.VoteRequest?)
    && var n, n' := w.nodes[l], w'.nodes[l];
    && n.Leads() && p in n.peers && Moved(n, n', p)
    && (p, n.currentTerm()) in g.held && g.held[(p, n.currentTerm())] == |n.log|
    && n.currentTerm() in w.past.ledLog && w.past.ledLog[n.currentTerm()] == n.log && 0 < n.currentTerm()
    && n.peers == w.nodes.Keys - {l}
    && g' == if n'.commitIndex != n.commitIndex then g.(decided := g.decided[l := (n.currentTerm(), n'.commitIndex)]) else g
  }

  /** What the leader commits has been chosen. */
  lemma CommittableIsChosen(w: World, g: Ledger, l: int, n: NodeState, idx: int)
    requires SourcesKnown(w, g) && l in w.nodes && w.nodes[l].Leads() && 0 < idx
    requires n.currentTerm() == w.nodes[l].currentTerm() && n.Leads() && n.log == w.nodes[l].log
    requires n.peers == w.nodes.Keys - {l} && MatchKnown(n, g) && Committable(n, idx)
    requires n.currentTerm() in w.past.ledLog && w.past.ledLog[n.currentTerm()] == n.log && 0 < n.currentTerm()
    ensures Chosen(g, w.past.ledLog, w.nodes.Keys, n.currentTerm(), idx)
  {
    var t := n.currentTerm();
    assert SourceKnown(w, g, l);
    forall v <- Matching(n, idx) + {l} ensures v in AckSet(g, w.nodes.Keys, t, idx) {
    }
    SubsetSize(Matching(n, idx) + {l}, AckSet(g, w.nodes.Keys, t, idx));
    assert w.nodes.Keys == n.peers + {l};
  }

  lemma MovedMatch(n: NodeState, g: Ledger, p: int)
    requires MatchKnown(n, g) && n.Leads() && p in n.peers && n.log != []
    requires (p, n.currentTerm()) in g.held && g.held[(p, n.currentTerm())] == |n.log|
    ensures MatchKnown(Informed(n, p), g)
  {
  }

  lemma MovedReplays(n: NodeState, n': NodeState, p: int, applied: Log)
    requires Replayed(n, applied) && Moved(n, n', p)
    ensures Replayed(n', applied) && n'.ballot == n.ballot && n'.peers == n.peers && n'.matchIndex == Informed(n, p).matchIndex
    ensures n'.log == n.log && n.commitIndex <= n'.commitIndex && (n'.commitIndex != n.commitIndex ==> Committable(Informed(n, p), n'.commitIndex))
  {
    MaybeCommitIsGreatest(Informed(n, p), n'.commitIndex);
    ReplayedLater(n, n', applied);
  }

  lemma MovedCommit(w: World, g: Ledger, w': World, g': Ledger, l: int, p: int)
    requires Known(w, g) && MovedDelta(w, g, w', g', l, p) && MatchKnown(Informed(w.nodes[l], p), g)
    ensures CommitKnown(w', g', l)
  {
    hide Structure, HeldKnown, BallotsKnown, RequestsKnown, NodesKnown, MatchKnown, Replayed, MaybeCommit, Committable;
    var n, n' := w.nodes[l], w'.nodes[l];
    NodeIsKnown(w, g, l);
    NotNegative(n, AppliedBy(w.past, l));
    MovedReplays(n, n', p, AppliedBy(w.past, l));
    assert w'.nodes.Keys == w.nodes.Keys;
    if n'.commitIndex != n.commitIndex {
      CommittableIsChosen(w, g, l, Informed(n, p), n'.commitIndex);
      InDecided(g, g', w.past.ledLog, w.nodes.Keys, n.currentTerm(), n'.commitIndex);
    }
  }

  lemma NotNegative(n: NodeState, applied: Log)
    requires Replayed(n, applied)
    ensures 0 <= n.commitIndex
  {
  }

  lemma InDecided(g: Ledger, g': Ledger, terms: TermLogs, nodes: set<int>, t: int, idx: int)
    requires Chosen(g, terms, nodes, t, idx) && g'.held == g.held
    ensures Decided(g', terms, nodes, t, idx)
  {
    assert AckSet(g', nodes, t, idx) == AckSet(g, nodes, t, idx);
  }

  lemma MovedLeader(w: World, g: Ledger, w': World, g': Ledger, l: int, p: int)
    requires Known(w, g) && MovedDelta(w, g, w', g', l, p)
    ensures MatchKnown(w'.nodes[l], g') && CommitKnown(w', g', l) && Replayed(w'.nodes[l], AppliedBy(w'.past, l))
  {
    hide Structure, SourcesKnown, HeldKnown, BallotsKnown, RequestsKnown, NodesKnown, MatchKnown, CommitKnown, Replayed, MaybeCommit;
    NodeIsKnown(w, g, l);
    MovedReplays(w.nodes[l], w'.nodes[l], p, AppliedBy(w.past, l));
    MovedMatch(w.nodes[l], g, p);
    MovedCommit(w, g, w', g', l, p);
    MatchLater(Informed(w.nodes[l], p), w'.nodes[l], g, g');
  }

  lemma OtherNodeKnown(w: World, g: Ledger, w': World, g': Ledger, l: int, j: int)
    requires NodesKnown(w, g) && OnlyNode(w, w', l) && w'.past == w.past && j in w.nodes && j != l
    requires g' == g.(decided := g'.decided) && (j in g.decided ==> j in g'.decided && g'.decided[j] == g.decided[j])
    ensures MatchKnown(w'.nodes[j], g') && CommitKnown(w', g', j) && Replayed(w'.nodes[j], AppliedBy(w'.past, j))
  {
    assert MatchKnown(w.nodes[j], g) && CommitKnown(w, g, j);
    assert w'.nodes.Keys == w.nodes.Keys;
  }

  lemma MovedNodes(w: World, g: Ledger, w': World, g': Ledger, l: int, p: int)
    requires Known(w, g) && MovedDelta(w, g, w', g', l, p)
    ensures NodesKnown(w', g')
  {
    hide Structure, SourcesKnown, HeldKnown, BallotsKnown, RequestsKnown, MatchKnown, CommitKnown, Replayed, Moved;
    MovedLeader(w, g, w', g', l, p);
    forall j <- w'.nodes | j != l
      ensures MatchKnown(w'.nodes[j], g') && CommitKnown(w', g', j) && Replayed(w'.nodes[j], AppliedBy(w'.past, j)) {
      OtherNodeKnown(w, g, w', g', l, j);
    }
  }

  lemma MovedKnown(w: World, g: Ledger, w': World, g': Ledger, l: int, p: int)
    requires Known(w, g) && MovedDelta(w, g, w', g', l, p)
    ensures Known(w', g')
  {
    MovedNodes(w, g, w', g', l, p);
    SameLogsKnown(w, g, w', g', l);
  }

  // -----  All actions  -----

  function LedgerAfter(w: World, g: Ledger, a: Action): Ledger
    requires Possible(w, a)
    requires w.nodes.Keys <= g.source.Keys && w.nodes.Keys <= g.decided.Keys
  {
    match a
    case Do(st) => LocalLedger(w, g, st)
    case Exchange(_, _, _) => ExchangeLedger(w, g, a)
  }

  lemma KnownDomains(w: World, g: Ledger)
    requires Known(w, g)
    ensures w.nodes.Keys <= g.source.Keys && w.nodes.Keys <= g.decided.Keys
  {
    forall i <- w.nodes.Keys ensures i in g.source.Keys && i in g.decided.Keys {
      assert SourceKnown(w, g, i) && CommitKnown(w, g, i);
    }
  }

  lemma LocalKnown(w: World, g: Ledger, st: Step)
    requires FullInv(w) && Known(w, g) && Possible(w, Do(st)) && Careful(w, Do(st)) && Actor(st) in g.source
    ensures Known(Next(w, st), LocalLedger(w, g, st))
  {
    var n := w.nodes[Actor(st)];
    if Wins(n, st) {
      FullInvStep(w, st);
      WinIsDelta(w, g, st);
      WinKnown(w, g, Next(w, st), LocalLedger(w, g, st), Actor(st), n.currentTerm(),
               Voters(Next(w, st).past.counted, Actor(st), n.currentTerm()));
    } else if st.Take? && n.Leads() {
      FullInvStep(w, st);
      TakeIsDelta(w, g, st);
      LeaderTermPositive(w, Actor(st));
      GrowKnown(w, g, Next(w, st), LocalLedger(w, g, st), Actor(st), n.currentTerm(), Next(w, st).nodes[Actor(st)].log);
    } else {
      StillKnown(w, g, st);
    }
  }

  lemma LeaderTermPositive(w: World, i: int)
    requires FullInv(w) && i in w.nodes && w.nodes[i].Leads()
    ensures 0 < w.nodes[i].currentTerm()
  {
    assert PollOf(w).ballots[i].role == Leader;
    LedTermKnown(w, w.nodes[i].currentTerm(), i);
  }

  // The ledger once the peer has answered.
  function AnsweredLedger(w: World, g: Ledger, a: Action): Ledger
    requires Possible(w, a) && a.Exchange? && a.leader in g.decided
  {
    var l, p := a.leader, a.peer;
    if !Reply(w, a).success then g
    else
      g.(source := g.source[p := w.nodes[l].currentTerm()],
      held := g.held[(p, w.nodes[l].currentTerm()) := |w.nodes[l].log|],
      decided := if PeerAfter(w, a).commitIndex != w.nodes[p].commitIndex then g.decided[p := g.decided[l]] else g.decided)
  }

  lemma PeerRefuses(n: NodeState, m: Message)
    requires m.AppendRequest? && m.prevIndex >= -1 && !Accepts(n, m)
    ensures QuietNode(n, AnswerAppend(n, m).0)
  {
  }

  // The request is the rest of the leader's log, cut at an entry the leader has.
  lemma RequestIsRest(w: World, a: Action)
    requires FullInv(w) && Possible(w, a) && a.Exchange? && w.nodes[a.leader].Leads()
    ensures var (m, n) := (Request(w, a), w.nodes[a.leader]);
            && a.leader != a.peer && n.peers == w.nodes.Keys - {a.leader}
            && n.currentTerm() in w.past.ledLog && w.past.ledLog[n.currentTerm()] == n.log
            && AppendSound(m, w.past.led, w.past.ledLog)
            && m.prevIndex >= 0 && m.prevIndex + 1 + |m.entries| == |n.log| && m.term == n.currentTerm()
  {
    hide FullInv, AppendSound;
    LeaderKnows(w, a.leader);
    SnapshotSound(w, a.leader, a.peer);
  }

  lemma PeerTerm(n: NodeState, m: Message)
    requires m.AppendRequest? && m.prevIndex >= -1
    ensures AnswerAppend(n, m).1.success <==> Accepts(n, m)
    ensures AnswerAppend(n, m).0.Leads() ==> n.Leads() && (Accepts(n, m) ==> n.currentTerm() == m.term)
  {
  }

  lemma PeerFollows(w: World, a: Action)
    requires FullInv(w) && Possible(w, a) && a.Exchange? && w.nodes[a.leader].Leads() && Reply(w, a).success
    ensures !PeerAfter(w, a).Leads()
  {
    hide FullInv, AppendSound, SnapshotFor, AnswerAppend;
    RequestIsRest(w, a);
    LeaderKnows(w, a.leader);
    PeerTerm(w.nodes[a.peer], Request(w, a));
    if PeerAfter(w, a).Leads() {
      LeaderUnique(w, a.peer, a.leader);
    }
  }

  lemma PeerCopies(w: World, a: Action)
    requires FullInv(w) && Possible(w, a) && a.Exchange? && Careful(w, a) && Reply(w, a).success
    ensures PeerAfter(w, a).log == w.nodes[a.leader].log
  {
    hide Inv, Rooted, LeadersCurrent, AppendsSound, TermsLed, SnapshotFor, AnswerAppend;
    var m, n := Request(w, a), w.nodes[a.leader];
    RequestIsRest(w, a);
    PeerTerm(w.nodes[a.peer], m);
    DeliverCopies(w.nodes[a.peer], m, w.past.ledLog);
    assert n.log[..|n.log|] == n.log;
  }

  lemma PeerNode(n: NodeState, m: Message)
    requires m.AppendRequest? && m.prevIndex >= -1 && Accepts(n, m)
    ensures var n' := AnswerAppend(n, m).0;
            && n.currentTerm() <= m.term == n'.currentTerm()
            && n'.peers == n.peers && n'.matchIndex == n.matchIndex
            && n'.lastApplied == n.lastApplied && n'.groups == n.groups
            && n'.commitIndex == if m.commit > n.commitIndex then Min(m.commit, |n'.log| - 1) else n.commitIndex
  {
  }

  lemma AnsweredQuiet(w: World, a: Action)
    requires FullInv(w) && Possible(w, a) && a.Exchange? && w.nodes[a.leader].Leads() && !Reply(w, a).success
    ensures QuietDelta(w, Answered(w, a), a.peer)
  {
    hide FullInv, AppendSound;
    RequestIsRest(w, a);
    PeerRefuses(w.nodes[a.peer], Request(w, a));
  }

  lemma AnsweredCopies(w: World, g: Ledger, a: Action)
    requires Possible(w, a) && a.Exchange? && a.leader in g.decided && a.peer in g.decided
    requires Careful(w, a) && Reply(w, a).success
    requires FullInv(w) && Replayed(w.nodes[a.leader], AppliedBy(w.past, a.leader))
    ensures SafeSize(|w.nodes|)
    ensures CopyDelta(w, g, Answered(w, a), AnsweredLedger(w, g, a), a.leader, a.peer, w.nodes[a.leader].currentTerm())
  {
    hide Inv, LogInv, AppendSound, Careful;
    CarefulLeads(w, a);
    RequestIsRest(w, a);
    PeerFollows(w, a);
    PeerCopies(w, a);
    PeerNode(w.nodes[a.peer], Request(w, a));
  }

  lemma AnsweredKnown(w: World, g: Ledger, a: Action)
    requires FullInv(w) && Known(w, g) && Possible(w, a) && a.Exchange? && Careful(w, a)
    requires a.leader in g.decided && a.peer in g.decided
    ensures Known(Answered(w, a), AnsweredLedger(w, g, a))
  {
    hide Known, FullInv, Careful, CopyDelta, Reply, AnswerAppend, QuietNode;
    CarefulLeads(w, a);
    if Reply(w, a).success {
      NodeIsKnown(w, g, a.leader);
      AnsweredCopies(w, g, a);
      CopyKnown(w, g, Answered(w, a), AnsweredLedger(w, g, a), a.leader, a.peer, w.nodes[a.leader].currentTerm());
    } else {
      AnsweredQuiet(w, a);
      QuietKnown(w, g, Answered(w, a), a.peer);
    }
  }

  lemma LeaderStage(n: NodeState, p: int, sent: int, term: int, success: bool)
    ensures var n' := CountAppend(n, p, sent, term, success);
            (success && Moved(n, n', p)) || QuietNode(n, n')
  {
  }

  lemma ExchangeStages(w: World, g: Ledger, a: Action)
    requires FullInv(w) && Possible(w, a) && a.Exchange? && w.nodes[a.leader].Leads() && a.leader in g.decided
    ensures var (w1, g1, w', g', l) := (Answered(w, a), AnsweredLedger(w, g, a), After(w, a), ExchangeLedger(w, g, a), a.leader);
            && OnlyNode(w1, w', l) && w'.past == w1.past && w1.past == w.past && w1.nodes.Keys == w.nodes.Keys
            && w.nodes[l].Leads() && w.nodes[l].peers == w1.nodes.Keys - {l} && w1.nodes[l] == w.nodes[l] && w'.nodes[l] == LeaderAfter(w, a)
            && (forall m <- w'.net :: m in w1.net || !m.VoteRequest?)
            && (LeaderAfter(w, a).commitIndex == w.nodes[l].commitIndex ==> g' == g1)
            && (Reply(w, a).success ==>
                  && g'.decided == (if LeaderAfter(w, a).commitIndex == w.nodes[l].commitIndex then g1.decided
                                    else g1.decided[l := (w.nodes[l].currentTerm(), LeaderAfter(w, a).commitIndex)])
                  && g' == g1.(decided := g'.decided)
                  && (a.peer, w.nodes[l].currentTerm()) in g1.held
                  && g1.held[(a.peer, w.nodes[l].currentTerm())] == |w.nodes[l].log|)
  {
    hide FullInv, AppendSound, PeerAfter, LeaderAfter, Reply, Request;
    RequestIsRest(w, a);
    assert Answered(w, a).nodes.Keys == w.nodes.Keys;
  }

  lemma ExchangeMoved(w: World, g: Ledger, a: Action)
    requires Possible(w, a) && a.Exchange? && w.nodes[a.leader].Leads() && a.leader in g.decided
    requires Reply(w, a).success && Moved(w.nodes[a.leader], LeaderAfter(w, a), a.peer)
    requires FullInv(w) && Known(Answered(w, a), AnsweredLedger(w, g, a))
    ensures Known(After(w, a), ExchangeLedger(w, g, a))
  {
    hide Known, FullInv, AppendSound, MaybeCommit, Moved, Reply, LeaderAfter, After, ExchangeLedger, AnsweredLedger, Answered;
    ExchangeStages(w, g, a);
    RequestIsRest(w, a);
    LeaderTermPositive(w, a.leader);
    MovedKnown(Answered(w, a), AnsweredLedger(w, g, a), After(w, a), ExchangeLedger(w, g, a), a.leader, a.peer);
  }

  lemma QuietNodeCommits(n: NodeState, n': NodeState)
    requires QuietNode(n, n')
    ensures n'.commitIndex == n.commitIndex
  {
  }

  lemma ExchangeQuiet(w: World, g: Ledger, a: Action)
    requires FullInv(w) && Possible(w, a) && a.Exchange? && w.nodes[a.leader].Leads() && a.leader in g.decided
    requires Known(Answered(w, a), AnsweredLedger(w, g, a))
    requires QuietNode(w.nodes[a.leader], LeaderAfter(w, a))
    ensures Known(After(w, a), ExchangeLedger(w, g, a))
  {
    hide Known, FullInv, QuietNode, Reply, LeaderAfter, After, ExchangeLedger, AnsweredLedger, Answered;
    ExchangeStages(w, g, a);
    QuietNodeCommits(w.nodes[a.leader], LeaderAfter(w, a));
    QuietKnown(Answered(w, a), AnsweredLedger(w, g, a), After(w, a), a.leader);
  }

  lemma LeaderQuietOrMoved(w: World, a: Action)
    requires Possible(w, a) && a.Exchange?
    ensures QuietNode(w.nodes[a.leader], LeaderAfter(w, a))
            || (Reply(w, a).success && Moved(w.nodes[a.leader], LeaderAfter(w, a), a.peer))
  {
    var r := Reply(w, a);
    LeaderStage(w.nodes[a.leader], a.peer, r.sent, r.term, r.success);
  }

  lemma ExchangeKnown(w: World, g: Ledger, a: Action)
    requires FullInv(w) && Known(w, g) && Possible(w, a) && a.Exchange? && Careful(w, a)
    requires a.leader in g.decided && a.peer in g.decided
    ensures Known(After(w, a), ExchangeLedger(w, g, a))
  {
    hide Known, FullInv, Careful, QuietNode, Moved, Reply, LeaderAfter, After, ExchangeLedger, AnsweredLedger, Answered;
    CarefulLeads(w, a);
    AnsweredKnown(w, g, a);
    LeaderQuietOrMoved(w, a);
    if QuietNode(w.nodes[a.leader], LeaderAfter(w, a)) {
      ExchangeQuiet(w, g, a);
    } else {
      ExchangeMoved(w, g, a);
    }
  }

  lemma KnownAfter(w: World, g: Ledger, a: Action)
    requires FullInv(w) && Known(w, g) && Possible(w, a) && Careful(w, a)
    requires w.nodes.Keys <= g.source.Keys && w.nodes.Keys <= g.decided.Keys
    ensures Known(After(w, a), LedgerAfter(w, g, a))
  {
    hide Known, FullInv, ExchangeLedger, LocalLedger, Next;
    match a
    case Do(st) => LocalKnown(w, g, st);
    case Exchange(_, _, _) => ExchangeKnown(w, g, a);
  }
}
