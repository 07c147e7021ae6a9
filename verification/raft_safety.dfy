/**
 Leader completeness and state machine safety over whole runs: the ledger of module
 Completeness, carried along every action.
 */
module RunSafety {
  import opened Basics
  import opened RaftLogs
  import opened RaftNodes
  import opened RaftSystem
  import opened ElectionSafety
  import opened LogMatching
  import opened Replication
  import opened Completeness

  // H1, H2, H3 and H6 for every action; that exchanges are atomic is H4.
  ghost predicate CarefulRun(run: seq<World>, actions: seq<Action>)
    requires IsAtomicRun(run, actions)
  {
    forall k :: 0 <= k < |actions| ==> Careful(run[k], actions[k])
  }

  // The record of leaders' logs and of who held them only grows.
  ghost predicate Grows(g: Ledger, terms: TermLogs, g': Ledger, terms': TermLogs) {
    && (forall t <- terms :: t in terms' && terms[t] <= terms'[t])
    && (forall k <- g.held :: k in g'.held && g.held[k] <= g'.held[k])
  }

  lemma GrowsNot(g: Ledger, terms: TermLogs)
    ensures Grows(g, terms, g, terms)
  {
  }

  lemma GrowsTrans(g: Ledger, t: TermLogs, g': Ledger, t': TermLogs, g'': Ledger, t'': TermLogs)
    requires Grows(g, t, g', t') && Grows(g', t', g'', t'')
    ensures Grows(g, t, g'', t'')
  {
    forall u <- t ensures u in t'' && t[u] <= t''[u] {
      assert t''[u][..|t'[u]|] == t'[u];
    }
  }

  lemma GrowsLocally(w: World, g: Ledger, st: Step)
    requires FullInv(w) && Known(w, g) && Possible(w, Do(st)) && Careful(w, Do(st)) && Actor(st) in g.source
    ensures Grows(g, w.past.ledLog, LocalLedger(w, g, st), Next(w, st).past.ledLog)
  {
    hide FullInv, Known, Voters;
    var w', g', i := Next(w, st), LocalLedger(w, g, st), Actor(st);
    var n := w.nodes[i];
    if Wins(n, st) {
      WinIsDelta(w, g, st);
      WinExtends(w, g, w', g', i, n.currentTerm(), Voters(w'.past.counted, i, n.currentTerm()));
    } else if st.Take? && n.Leads() {
      TakeIsDelta(w, g, st);
      GrowExtends(w, g, w', g', i, n.currentTerm(), w'.nodes[i].log);
    } else {
      StillNode(w, g, st);
    }
  }

  lemma GrowsAcross(w: World, g: Ledger, a: Action)
    requires FullInv(w) && HeldSound(g, w.past.ledLog) && Possible(w, a) && a.Exchange? && w.nodes[a.leader].Leads() && a.leader in g.decided
    ensures Grows(g, w.past.ledLog, ExchangeLedger(w, g, a), After(w, a).past.ledLog)
  {
    hide FullInv, AppendSound, PeerAfter, LeaderAfter, Reply, Request;
    RequestIsRest(w, a);
  }

  ghost predicate Sound(w: World, g: Ledger) {
    FullInv(w) && Known(w, g)
  }

  lemma LedgerGrows(w: World, g: Ledger, a: Action)
    requires Sound(w, g) && Possible(w, a) && Careful(w, a)
    requires w.nodes.Keys <= g.source.Keys && w.nodes.Keys <= g.decided.Keys
    ensures Grows(g, w.past.ledLog, LedgerAfter(w, g, a), After(w, a).past.ledLog)
  {
    hide FullInv, SourcesKnown, HeldKnown, BallotsKnown, RequestsKnown, NodesKnown, Careful, NodeAfter, Sent, Grows,
      TermLogsRooted, Shapes, AllBacked, HeldSound;
    match a
    case Do(st) => GrowsLocally(w, g, st);
    case Exchange(_, _, _) =>
      CarefulLeads(w, a);
      GrowsAcross(w, g, a);
  }

  lemma CarryOnce(w: World, g: Ledger, a: Action) returns (g': Ledger)
    requires Sound(w, g) && Possible(w, a) && Careful(w, a)
    ensures Sound(After(w, a), g') && Grows(g, w.past.ledLog, g', After(w, a).past.ledLog)
  {
    hide FullInv, Known, Careful, Can, NodeAfter, PastAfter, Sent, Grows, After, LedgerAfter;
    KnownDomains(w, g);
    g' := LedgerAfter(w, g, a);
    FullInvAfter(w, a);
    KnownAfter(w, g, a);
    LedgerGrows(w, g, a);
  }

  lemma {:induction false} SameNodes(run: seq<World>, actions: seq<Action>, j: int, k: int)
    requires IsAtomicRun(run, actions) && 0 <= j <= k < |run|
    ensures run[k].nodes.Keys == run[j].nodes.Keys
    decreases k
  {
    if j < k {
      SameNodes(run, actions, j, k - 1);
      var w, a := run[k - 1], actions[k - 1];
      assert After(w, a).nodes.Keys == w.nodes.Keys;
    }
  }

  // A ledger of one state of a run can be kept up to any later state.
  lemma {:induction false} Carry(run: seq<World>, actions: seq<Action>, j: int, k: int, g: Ledger) returns (g': Ledger)
    requires IsAtomicRun(run, actions) && CarefulRun(run, actions) && 0 <= j <= k < |run|
    requires Sound(run[j], g)
    ensures Sound(run[k], g')
    ensures Grows(g, run[j].past.ledLog, g', run[k].past.ledLog)
    decreases k
  {
    hide Sound, Grows, Careful, Possible, After;
    if j == k {
      g' := g;
      GrowsNot(g, run[j].past.ledLog);
    } else {
      var g1 := Carry(run, actions, j, k - 1, g);
      assert Careful(run[k - 1], actions[k - 1]);
      g' := CarryOnce(run[k - 1], g1, actions[k - 1]);
      GrowsTrans(g, run[j].past.ledLog, g1, run[k - 1].past.ledLog, g', run[k].past.ledLog);
    }
  }

  lemma KnownRun(run: seq<World>, actions: seq<Action>, k: int) returns (g: Ledger)
    requires IsAtomicRun(run, actions) && Init(run[0]) && SafeSize(|run[0].nodes|) && CarefulRun(run, actions)
    requires 0 <= k < |run|
    ensures Sound(run[k], g)
  {
    FullInvInit(run[0]);
    InitKnown(run[0]);
    g := Carry(run, actions, 0, k, InitialLedger(run[0]));
  }

  lemma StillDecided(g: Ledger, terms: TermLogs, g': Ledger, terms': TermLogs, nodes: set<int>, t: int, idx: int)
    requires Grows(g, terms, g', terms') && Decided(g, terms, nodes, t, idx)
    ensures Decided(g', terms', nodes, t, idx) && Agree(terms'[t], terms[t], |terms[t]|)
  {
    forall v <- AckSet(g, nodes, t, idx) ensures v in AckSet(g', nodes, t, idx) {
    }
    SubsetSize(AckSet(g, nodes, t, idx), AckSet(g', nodes, t, idx));
  }

  // Part of a log that agrees with an older version of the decided term's log is in every later term's.
  lemma PassedOn(x: Log, older: Log, newer: Log, later: Log, idx: int, c: int)
    requires Agree(x, older, c) && Agree(newer, older, |older|) && Agree(later, newer, idx + 1) && c <= idx + 1
    ensures Agree(later, x, c)
  {
    AgreeShorter(newer, older, |older|, c);
    AgreeShorter(later, newer, idx + 1, c);
  }

  // A node's committed prefix is in the log of any later led term.
  lemma TermHas(w: World, g: Ledger, terms: TermLogs, g': Ledger, i: int, T: int)
    requires Known(w, g) && SafeSize(|w.nodes.Keys|) && Structure(g', terms, w.nodes.Keys)
    requires Grows(g, w.past.ledLog, g', terms)
    requires i in w.nodes && w.nodes[i].currentTerm() <= T && T in terms
    ensures Agree(terms[T], w.nodes[i].log, w.nodes[i].commitIndex + 1)
  {
    CommitFrom(w, g, i);
    var (t, idx) := g.decided[i];
    StillDecided(g, w.past.ledLog, g', terms, w.nodes.Keys, t, idx);
    DecidedInTerm(g', terms, w.nodes.Keys, t, idx, T);
    PassedOn(w.nodes[i].log, w.past.ledLog[t], terms[t], terms[T], idx, w.nodes[i].commitIndex + 1);
  }

  function CommittedPart(n: NodeState): Log {
    if 0 <= n.commitIndex < |n.log| then n.log[..n.commitIndex + 1] else n.log
  }

  lemma LeaderHas(w: World, g: Ledger, w': World, g': Ledger, i: int, l: int)
    requires Sound(w, g) && Sound(w', g')
    requires Grows(g, w.past.ledLog, g', w'.past.ledLog) && w'.nodes.Keys == w.nodes.Keys
    requires i in w.nodes && l in w'.nodes && w'.nodes[l].Leads()
    requires w.nodes[i].currentTerm() <= w'.nodes[l].currentTerm()
    ensures 0 <= w.nodes[i].commitIndex < |w.nodes[i].log| && CommittedPart(w.nodes[i]) <= w'.nodes[l].log
  {
    hide Inv, TermLogsRooted, NodesRooted, AppendsSound, TermsLed, SourcesKnown, HeldKnown, BallotsKnown, RequestsKnown, NodesKnown;
    assert LeaderCurrent(w', l);
    assert |w.nodes.Keys| == |w.nodes|;
    CommitFrom(w, g, i);
    TermHas(w, g, w'.past.ledLog, g', i, w'.nodes[l].currentTerm());
  }

  /**
   Leader completeness (section 5.4 of the Raft paper), for a cluster of an odd number of nodes or of two, in runs that
   are careful and whose exchanges are atomic: what any node has committed at some moment is,
   entry for entry, in the log of whoever leads a term no earlier at any later moment.
   */
  lemma CommittedStaysWithLeaders(run: seq<World>, actions: seq<Action>, j: int, k: int, i: int, l: int)
    requires IsAtomicRun(run, actions) && Init(run[0]) && SafeSize(|run[0].nodes|) && CarefulRun(run, actions)
    requires 0 <= j <= k < |run| && i in run[j].nodes && l in run[k].nodes && run[k].nodes[l].Leads()
    requires run[j].nodes[i].currentTerm() <= run[k].nodes[l].currentTerm()
    ensures 0 <= run[j].nodes[i].commitIndex < |run[j].nodes[i].log|
    ensures CommittedPart(run[j].nodes[i]) <= run[k].nodes[l].log
  {
    var older, newer := run[j], run[k];
    var g := KnownRun(run, actions, j);
    var g' := Carry(run, actions, j, k, g);
    SameNodes(run, actions, j, k);
    assert older.nodes.Keys == newer.nodes.Keys;
    LeaderHas(older, g, newer, g', i, l);
  }

  lemma CommittedAgree(w: World, g: Ledger, a: int, b: int, c: int)
    requires Known(w, g) && SafeSize(|w.nodes.Keys|) && a in w.nodes && b in w.nodes && a in g.decided && b in g.decided
    requires g.decided[a].0 <= g.decided[b].0 && 0 <= c <= w.nodes[a].commitIndex + 1 && c <= w.nodes[b].commitIndex + 1
    ensures Agree(w.nodes[a].log, w.nodes[b].log, c)
  {
    CommitFrom(w, g, a);
    CommitFrom(w, g, b);
    var ((t, idx), (u, _)) := (g.decided[a], g.decided[b]);
    var terms := w.past.ledLog;
    DecidedInTerm(g, terms, w.nodes.Keys, t, idx, u);
    AgreeShorter(w.nodes[a].log, terms[t], w.nodes[a].commitIndex + 1, c);
    PassedOn(w.nodes[a].log, terms[t], terms[t], terms[u], idx, c);
    AgreeShorter(w.nodes[b].log, terms[u], w.nodes[b].commitIndex + 1, c);
  }

  lemma AppliedPrefixes(x: Log, y: Log, m: int, n: int, c: int)
    requires 1 <= c <= m <= |x| && c <= n <= |y| && (c == m || c == n) && x[..c] == y[..c]
    ensures c == m ==> x[1..m] <= y[1..n]
    ensures c == n ==> y[1..n] <= x[1..m]
  {
    assert x[1..c] == x[..c][1..] && y[1..c] == y[..c][1..];
    assert y[1..n][..c - 1] == y[1..c] && x[1..m][..c - 1] == x[1..c];
  }

  lemma AppliedComparable(w: World, g: Ledger, a: int, b: int)
    requires Known(w, g) && SafeSize(|w.nodes.Keys|) && a in w.nodes && b in w.nodes
    ensures AppliedBy(w.past, a) <= AppliedBy(w.past, b) || AppliedBy(w.past, b) <= AppliedBy(w.past, a)
    ensures w.nodes[a].lastApplied == w.nodes[b].lastApplied ==> w.nodes[a].groups == w.nodes[b].groups
  {
    var x, y := w.nodes[a], w.nodes[b];
    CommitFrom(w, g, a);
    CommitFrom(w, g, b);
    var c := Min(x.lastApplied, y.lastApplied) + 1;
    if g.decided[a].0 <= g.decided[b].0 {
      CommittedAgree(w, g, a, b, c);
    } else {
      CommittedAgree(w, g, b, a, c);
    }
    AppliedPrefixes(x.log, y.log, x.lastApplied + 1, y.lastApplied + 1, c);
  }

  /**
   State machine safety (section 5.4.3 of the Raft paper) in the same runs: of what any two
   nodes have ever applied, one is a prefix of the other; each node has applied its log from
   1 to lastApplied, once each and in order; and its groups are the replay of that.
   */
  lemma AppliesNeverConflict(run: seq<World>, actions: seq<Action>, k: int, a: int, b: int)
    requires IsAtomicRun(run, actions) && Init(run[0]) && SafeSize(|run[0].nodes|) && CarefulRun(run, actions)
    requires 0 <= k < |run| && a in run[k].nodes && b in run[k].nodes
    ensures Replayed(run[k].nodes[a], AppliedBy(run[k].past, a))
    ensures AppliedBy(run[k].past, a) <= AppliedBy(run[k].past, b) || AppliedBy(run[k].past, b) <= AppliedBy(run[k].past, a)
    ensures run[k].nodes[a].lastApplied == run[k].nodes[b].lastApplied ==> run[k].nodes[a].groups == run[k].nodes[b].groups
  {
    var g := KnownRun(run, actions, k);
    assert |run[k].nodes.Keys| == |run[k].nodes|;
    CommitFrom(run[k], g, a);
    AppliedComparable(run[k], g, a, b);
  }
}
