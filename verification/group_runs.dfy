/** Whole runs of a group: members come and go while the watcher rebalances (internal/consumer/group.go, coordinator.go). */
module GroupRuns {
  import opened Basics
  import opened Listings
  import opened RoundRobin
  import opened ConsumerGroups

  // The group's watcher: waiting, or woken, or woken and done with the partition counts.
  datatype Watcher = Idle | Took | Counted

  // What a rebalance looked at.
  datatype Snapshot = Snapshot(members: set<string>, counts: map<string, int>)

  datatype Reply = Reply(generation: int, member: string, parts: seq<int>)

  // `past` and `replies` are bookkeeping: the snapshot behind each generation, and every share handed out so far.
  datatype World = World(group: GroupState, watcher: Watcher, past: map<int, Snapshot>, replies: seq<Reply>)

  const START := World(NEW_GROUP, Idle, map[], [])

  datatype Step =
    | Join(id: string, topics: seq<string>, now: int)
    | Leave(id: string)
    | Beat(id: string, now: int)
    | Sync(id: string, generation: int)
    | SetCount(topic: string, count: int)
    | Expire(now: int, timeout: int)
    | Take
    | UpdateCounts(counts: string -> int)
    | Rebalance

  predicate Enabled(w: World, s: Step) {
    match s
    case Take => w.group.token && w.watcher == Idle
    case UpdateCounts(_) => w.watcher == Took
    case Rebalance => w.watcher == Counted
    case _ => true
  }

  ghost function Next(w: World, s: Step): World {
    var g := w.group;
    match s
    case Join(id, topics, now) => w.(group := Joined(g, id, topics, now))
    case Leave(id) => w.(group := Left(g, id))
    case Beat(id, now) => w.(group := Beaten(g, id, now))
    case Sync(id, generation) =>
      if Synced(g, id, generation).Shares? then
        w.(replies := w.replies + [Reply(generation, id, Synced(g, id, generation).parts)])
      else w
    case SetCount(topic, count) => w.(group := g.(counts := g.counts[topic := count]))
    case Expire(now, timeout) => w.(group := Expired(g, now, timeout))
    case Take => w.(group := g.(token := false), watcher := Took)
    case UpdateCounts(counts) => w.(group := Updated(g, counts), watcher := Counted)
    case Rebalance =>
      w.(group := Rebalanced(g), watcher := Idle, past := w.past[g.generation + 1 := Snapshot(g.members.Keys, g.counts)])
  }

  // run[k] is the world before step k.
  ghost predicate IsRun(run: seq<World>, steps: seq<Step>) {
    && |run| == |steps| + 1
    && forall k :: 0 <= k < |steps| ==> Enabled(run[k], steps[k]) && run[k + 1] == Next(run[k], steps[k])
  }

  ghost function BalancedFor(s: Snapshot): map<string, seq<int>> {
    Balanced(s.members, s.counts)
  }

  // The member's share of the generation's one assignment.
  ghost predicate FromAssignment(past: map<int, Snapshot>, generation: int, member: string, parts: seq<int>) {
    && generation in past
    && member in BalancedFor(past[generation])
    && parts == BalancedFor(past[generation])[member]
  }

  ghost predicate HistoryTrue(w: World) {
    && w.group.generation >= 0
    && (forall n <- w.past :: 1 <= n <= w.group.generation)
    && (forall id <- w.group.assignment :: FromAssignment(w.past, w.group.generation, id, w.group.assignment[id]))
    && (forall i :: 0 <= i < |w.replies| ==>
          FromAssignment(w.past, w.replies[i].generation, w.replies[i].member, w.replies[i].parts))
  }

  ghost predicate Wakeful(w: World) {
    && (w.group.phase == PreRebalance ==> w.group.token || w.watcher != Idle)
    && w.group.phase != CompletingRebalance
    && (w.group.members.Keys != {} ==> w.group.phase == PreRebalance || w.group.phase == Stable)
  }

  ghost predicate Settled(w: World) {
    var g := w.group;
    && g.assignment.Keys <= g.members.Keys
    && (g.phase == Stable ==> g.assignment.Keys == g.members.Keys)
    && (g.phase == Stable && g.members.Keys != {} ==>
          g.generation in w.past && w.past[g.generation].members == g.members.Keys
          && g.assignment == BalancedFor(w.past[g.generation]))
  }

  ghost predicate Inv(w: World) {
    HistoryTrue(w) && Wakeful(w) && Settled(w)
  }

  lemma HistoryStep(w: World, s: Step)
    requires HistoryTrue(w) && Enabled(w, s)
    ensures HistoryTrue(Next(w, s))
  {
    hide Balanced;
    if s.Rebalance? {
      var w' := Next(w, s);
      var n := w'.group.generation;
      forall id <- w'.group.assignment ensures FromAssignment(w'.past, n, id, w'.group.assignment[id]) {}
      forall i | 0 <= i < |w.replies|
        ensures FromAssignment(w'.past, w.replies[i].generation, w.replies[i].member, w.replies[i].parts)
      {}
    }
  }

  lemma WakefulStep(w: World, s: Step)
    requires Wakeful(w) && Enabled(w, s)
    ensures Wakeful(Next(w, s))
  {
    hide Balanced;
  }

  lemma SettledStep(w: World, s: Step)
    requires Inv(w) && Enabled(w, s)
    ensures Settled(Next(w, s))
  {
    hide Balanced, Registered, Stale, FromAssignment;
    if s.Rebalance? {
      BalancedKeys(w.group.members.Keys, w.group.counts);
    }
  }

  lemma StartInv()
    ensures Inv(START)
  {
  }

  lemma {:induction false} InvRun(run: seq<World>, steps: seq<Step>, k: nat)
    requires IsRun(run, steps) && run[0] == START && k <= |steps|
    ensures Inv(run[k])
  {
    if k == 0 {
      StartInv();
    } else {
      InvRun(run, steps, k - 1);
      HistoryStep(run[k - 1], steps[k - 1]);
      WakefulStep(run[k - 1], steps[k - 1]);
      SettledStep(run[k - 1], steps[k - 1]);
    }
  }

  lemma PastKeptStep(w: World, s: Step, n: int)
    requires HistoryTrue(w) && Enabled(w, s) && n in w.past
    ensures n in Next(w, s).past && Next(w, s).past[n] == w.past[n]
  {
    hide Balanced;
  }

  // A generation has one snapshot for good.
  lemma {:induction false} PastKept(run: seq<World>, steps: seq<Step>, i: nat, k: nat, n: int)
    requires IsRun(run, steps) && run[0] == START && i <= k <= |steps| && n in run[i].past
    ensures n in run[k].past && run[k].past[n] == run[i].past[n]
  {
    if i < k {
      PastKept(run, steps, i, k - 1, n);
      InvRun(run, steps, k - 1);
      PastKeptStep(run[k - 1], steps[k - 1], n);
    }
  }

  /** Fencing: in any run, all shares handed out under one generation, early or late, come from one round robin,
      over the members and partition counts of that generation's rebalance. */
  lemma RepliesFromOneAssignment(run: seq<World>, steps: seq<Step>, i: nat, k: nat, n: nat)
    requires IsRun(run, steps) && run[0] == START && i <= k <= |steps| && n < |run[i].replies|
    ensures var r := run[i].replies[n];
            && FromAssignment(run[i].past, r.generation, r.member, r.parts)
            && FromAssignment(run[k].past, r.generation, r.member, r.parts)
  {
    InvRun(run, steps, i);
    PastKept(run, steps, i, k, run[i].replies[n].generation);
  }

  // No partition id is in the shares of two of the members.
  ghost predicate NoneTwice(assignment: map<string, seq<int>>) {
    forall a <- assignment, b <- assignment, id :: a != b ==> !(id in assignment[a] && id in assignment[b])
  }

  lemma NoneTwiceIffDisjoint(members: seq<string>, ps: seq<Part>)
    requires members != [] && forall i, j :: 0 <= i < j < |members| ==> members[i] != members[j]
    ensures NoneTwice(Assignment(members, ps)) <==> Disjoint(ps, |members|)
  {
    hide Share;
    var shares := Assignment(members, ps);
    if NoneTwice(shares) {
      forall a, b, id | 0 <= a < b < |members|
        ensures !(id in Share(ps, a, |members|) && id in Share(ps, b, |members|))
      {
        assert members[a] in members && members[b] in members;
        assert IndexOf(members, members[a]) == a && IndexOf(members, members[b]) == b;
        assert shares[members[a]] == Share(ps, a, |members|) && shares[members[b]] == Share(ps, b, |members|);
      }
    }
    if Disjoint(ps, |members|) {
      forall a <- shares, b <- shares, id | a != b ensures !(id in shares[a] && id in shares[b]) {
        var i, j := IndexOf(members, a), IndexOf(members, b);
        assert i != j;
      }
    }
  }

  /** A rebalance gives no partition id to two members exactly when every topic but the last divides evenly. */
  lemma NoneTwiceIff(members: set<string>, counts: map<string, int>)
    requires members != {}
    ensures |members| > 0 && (NoneTwice(Balanced(members, counts)) <==> Divisible(counts, |members|))
  {
    BeforeIsTotal();
    EarlierIsTotal();
    var ms, ps := Listing(members, Before), Listing(Parts(counts), Earlier);
    ListingSize(ms, members, Before);
    hide Before, Earlier;
    assert forall i, j :: 0 <= i < j < |ms| ==> ms[i] != ms[j];
    NoneTwiceIffDisjoint(ms, ps);
    DisjointIffDivisible(ps, counts, |ms|);
  }

  /** Two topics of one partition each, and two members: both members get a partition 0. */
  lemma TwoTopicsOverlap()
    ensures !NoneTwice(Balanced({"a", "b"}, map["t" := 1, "u" := 1]))
  {
    var counts: map<string, int> := map["t" := 1, "u" := 1];
    NoneTwiceIff({"a", "b"}, counts);
    hide Balanced;
    assert |{"a", "b"}| == 2 && counts["t"] % 2 != 0 && Before("t", "u");
  }

  /** Fencing, continued: if every topic but the last divides evenly in a generation's rebalance, no partition id is
      handed to two members under that generation, whenever they ask. */
  lemma Fenced(run: seq<World>, steps: seq<Step>, k: nat, i: nat, j: nat, id: int)
    requires IsRun(run, steps) && run[0] == START && k <= |steps| && i < |run[k].replies| && j < |run[k].replies|
    requires var r, q := run[k].replies[i], run[k].replies[j];
             r.generation == q.generation && r.member != q.member && r.generation in run[k].past
    requires var snapshot := run[k].past[run[k].replies[i].generation];
             |snapshot.members| > 0 && Divisible(snapshot.counts, |snapshot.members|)
    ensures !(id in run[k].replies[i].parts && id in run[k].replies[j].parts)
  {
    InvRun(run, steps, k);
    var snapshot := run[k].past[run[k].replies[i].generation];
    assert snapshot.members != {};
    NoneTwiceIff(snapshot.members, snapshot.counts);
    hide Balanced, Before;
  }

  /** So one topic, or one topic that has partitions, is always safe. */
  lemma OneTopicDivides(counts: map<string, int>, m: nat)
    requires m > 0 && forall t <- counts, u <- counts :: counts[t] > 0 && counts[u] > 0 ==> t == u
    ensures Divisible(counts, m)
  {
    forall t <- counts ensures !Before(t, t) {
      BeforeIsStrict(t, t);
    }
  }

  /** In every reachable world, a group due for a rebalance has a wake-up waiting or a watcher at work. */
  lemma NoLostRebalance(run: seq<World>, steps: seq<Step>, k: nat)
    requires IsRun(run, steps) && run[0] == START && k <= |steps|
    ensures run[k].group.phase == PreRebalance ==> run[k].group.token || run[k].watcher != Idle
  {
    InvRun(run, steps, k);
  }

  /** Only members have shares; a stable group's members all do, and they are the round robin of the last rebalance. */
  lemma StableIsBalanced(run: seq<World>, steps: seq<Step>, k: nat)
    requires IsRun(run, steps) && run[0] == START && k <= |steps|
    ensures var w := run[k];
            && w.group.assignment.Keys <= w.group.members.Keys
            && (w.group.phase == Stable ==> w.group.assignment.Keys == w.group.members.Keys)
            && (w.group.phase == Stable && w.group.members.Keys != {} ==>
                  w.group.generation in w.past
                  && w.group.assignment == Balanced(w.group.members.Keys, w.past[w.group.generation].counts))
  {
    InvRun(run, steps, k);
  }

  predicate OfWatcher(s: Step) {
    s.Take? || s.UpdateCounts? || s.Rebalance?
  }

  // Members only read or say they are alive.
  predicate Quiet(s: Step) {
    s.Beat? || s.Sync? || OfWatcher(s)
  }

  // Steps and rebalances the watcher still has ahead of it.
  function Ahead(w: World): nat {
    (if w.group.token then 3 else 0) + match w.watcher case Idle => 0 case Took => 2 case Counted => 1
  }

  function RebalancesAhead(w: World): nat {
    (if w.group.token then 1 else 0) + if w.watcher == Idle then 0 else 1
  }

  lemma QuietStep(w: World, s: Step)
    requires Enabled(w, s) && Quiet(s)
    ensures var w' := Next(w, s);
            && Ahead(w') == Ahead(w) - (if OfWatcher(s) then 1 else 0)
            && RebalancesAhead(w') == RebalancesAhead(w) - (if s.Rebalance? then 1 else 0)
            && w'.group.members.Keys == w.group.members.Keys
  {
    hide Balanced;
  }

  function WatcherSteps(steps: seq<Step>): nat {
    if steps == [] then 0
    else
      var s := steps[|steps| - 1];
      WatcherSteps(steps[..|steps| - 1]) + if OfWatcher(s) then 1 else 0
  }

  function Rebalances(steps: seq<Step>): nat {
    if steps == [] then 0
    else Rebalances(steps[..|steps| - 1]) + if steps[|steps| - 1].Rebalance? then 1 else 0
  }

  lemma {:induction false} QuietRun(run: seq<World>, steps: seq<Step>)
    requires IsRun(run, steps) && forall s <- steps :: Quiet(s)
    ensures Ahead(run[|steps|]) + WatcherSteps(steps) == Ahead(run[0])
    ensures RebalancesAhead(run[|steps|]) + Rebalances(steps) == RebalancesAhead(run[0])
  {
    if steps != [] {
      var n := |steps| - 1;
      QuietRun(run[..|run| - 1], steps[..n]);
      assert run[..|run| - 1][n] == run[n] && steps[n] in steps;
      QuietStep(run[n], steps[n]);
    }
  }

  ghost predicate WatcherCanMove(w: World) {
    exists s :: OfWatcher(s) && Enabled(w, s)
  }

  lemma AheadCanMove(w: World)
    ensures WatcherCanMove(w) <==> Ahead(w) > 0
  {
    if w.watcher == Idle {
      assert w.group.token ==> OfWatcher(Take) && Enabled(w, Take);
    } else if w.watcher == Took {
      assert OfWatcher(UpdateCounts(_ => 0)) && Enabled(w, UpdateCounts(_ => 0));
    } else {
      assert OfWatcher(Rebalance) && Enabled(w, Rebalance);
    }
  }

  // A group with members is stable, and its assignment the round robin over what the last rebalance saw.
  ghost predicate AtRest(w: World) {
    w.group.members.Keys != {} ==>
      && w.group.phase == Stable && w.group.generation in w.past
      && w.past[w.group.generation].members == w.group.members.Keys
      && w.group.assignment == BalancedFor(w.past[w.group.generation])
  }

  /** Once joins, leaves, expiries and count changes stop, the watcher can move until it has made all the steps it had
      ahead, at most five with at most two rebalances among them; then it cannot, and the group is at rest. */
  lemma SettlesDown(run: seq<World>, steps: seq<Step>, n: nat)
    requires IsRun(run, steps) && run[0] == START && n <= |steps| && forall s <- steps[n..] :: Quiet(s)
    ensures WatcherSteps(steps[n..]) <= Ahead(run[n]) <= 5 && Rebalances(steps[n..]) <= 2
    ensures WatcherCanMove(run[|steps|]) <==> WatcherSteps(steps[n..]) < Ahead(run[n])
    ensures WatcherSteps(steps[n..]) == Ahead(run[n]) ==> AtRest(run[|steps|])
  {
    hide Balanced, Next, Enabled;
    assert IsRun(run[n..], steps[n..]);
    QuietRun(run[n..], steps[n..]);
    InvRun(run, steps, |steps|);
    AheadCanMove(run[|steps|]);
  }

  /** And it always gets there: from any reachable world the watcher alone, in as many steps as it has ahead, brings
      the group to rest. */
  lemma {:induction false} WatcherSettles(run: seq<World>, steps: seq<Step>) returns (run': seq<World>, steps': seq<Step>)
    requires IsRun(run, steps) && run[0] == START
    ensures IsRun(run', steps') && run <= run' && steps <= steps' && |steps'| == |steps| + Ahead(run[|steps|])
    ensures forall s <- steps'[|steps|..] :: OfWatcher(s)
    ensures AtRest(run'[|steps'|]) && !WatcherCanMove(run'[|steps'|])
    decreases Ahead(run[|steps|])
  {
    hide Balanced, Next, Enabled, AtRest, BalancedFor;
    var w := run[|steps|];
    AheadCanMove(w);
    if Ahead(w) == 0 {
      run', steps' := run, steps;
      SettlesDown(run, steps, |steps|);
    } else {
      var s :| OfWatcher(s) && Enabled(w, s);
      QuietStep(w, s);
      assert IsRun(run + [Next(w, s)], steps + [s]);
      run', steps' := WatcherSettles(run + [Next(w, s)], steps + [s]);
      assert steps'[|steps|] == s && steps'[|steps|..] == [s] + steps'[|steps| + 1..];
    }
  }

  // -----  What a history leaves behind  -----

  // What is known of one member id, and of one topic.
  datatype Seen = Absent | Present(topics: seq<string>, lastHeartbeat: int)
  datatype Count = Unset | Partitions(count: int)

  // The steps that concern member id, by themselves.
  function SeenAfter(seen: Seen, id: string, s: Step): Seen {
    match s
    case Join(i, topics, now) => if i == id then Present(topics, now) else seen
    case Leave(i) => if i == id then Absent else seen
    case Beat(i, now) => if i == id && seen.Present? then Present(seen.topics, now) else seen
    case Expire(now, timeout) => if seen.Present? && now - seen.lastHeartbeat > timeout then Absent else seen
    case _ => seen
  }

  // The steps that concern a topic, by themselves.
  function CountAfter(c: Count, topic: string, s: Step): Count {
    match s
    case Join(_, topics, _) => if c.Unset? && topic in topics then Partitions(1) else c
    case SetCount(t, n) => if t == topic then Partitions(n) else c
    case UpdateCounts(counts) => if c.Partitions? && counts(topic) > 0 then Partitions(counts(topic)) else c
    case _ => c
  }

  function SeenBy(steps: seq<Step>, id: string): Seen {
    if steps == [] then Absent else SeenAfter(SeenBy(steps[..|steps| - 1], id), id, steps[|steps| - 1])
  }

  function CountBy(steps: seq<Step>, topic: string): Count {
    if steps == [] then Unset else CountAfter(CountBy(steps[..|steps| - 1], topic), topic, steps[|steps| - 1])
  }

  function SeenIn(g: GroupState, id: string): Seen {
    if id in g.members then Present(g.members[id].topics, g.members[id].lastHeartbeat) else Absent
  }

  function CountIn(g: GroupState, topic: string): Count {
    if topic in g.counts then Partitions(g.counts[topic]) else Unset
  }

  lemma MemberStep(w: World, s: Step, id: string)
    requires Enabled(w, s)
    ensures SeenIn(Next(w, s).group, id) == SeenAfter(SeenIn(w.group, id), id, s)
  {
    hide Balanced, Registered;
  }

  lemma CountStep(w: World, s: Step, topic: string)
    requires Enabled(w, s)
    ensures CountIn(Next(w, s).group, topic) == CountAfter(CountIn(w.group, topic), topic, s)
  {
    hide Balanced, Registered;
    if s.Join? {
      RegisteredIs(w.group.counts, s.topics, topic);
    }
  }

  /**
   In any run, a member id is in the group exactly if it has joined since it last left or was found silent for too long,
   with the topics of that join and the time it was last heard of; a topic counts one partition from the join that
   first names it, then what it was last set to, or the coordinator's last positive count; and the generation is the
   number of rebalances.
   */
  lemma {:induction false} HistoryDecides(run: seq<World>, steps: seq<Step>, id: string, topic: string)
    requires IsRun(run, steps) && run[0] == START
    ensures var g := run[|steps|].group;
            && SeenIn(g, id) == SeenBy(steps, id) && CountIn(g, topic) == CountBy(steps, topic)
            && g.generation == Rebalances(steps)
  {
    hide Next, Enabled, SeenIn, CountIn, SeenAfter, CountAfter;
    StartSeen(id, topic);
    if steps != [] {
      var n := |steps| - 1;
      HistoryDecides(run[..|run| - 1], steps[..n], id, topic);
      assert run[..|run| - 1][n] == run[n] && Enabled(run[n], steps[n]) && run[n + 1] == Next(run[n], steps[n]);
      MemberStep(run[n], steps[n], id);
      CountStep(run[n], steps[n], topic);
      GenerationStep(run[n], steps[n]);
    }
  }

  lemma StartSeen(id: string, topic: string)
    ensures SeenIn(START.group, id) == Absent && CountIn(START.group, topic) == Unset && START.group.generation == 0
  {
  }

  lemma GenerationStep(w: World, s: Step)
    requires Enabled(w, s)
    ensures Next(w, s).group.generation == w.group.generation + if s.Rebalance? then 1 else 0
  {
    hide Balanced;
  }

  /** Between rebalances a share lasts exactly as long as its member stays. */
  lemma SharesStay(w: World, s: Step, id: string)
    requires Settled(w) && Enabled(w, s) && !s.Rebalance?
    ensures var (g, g') := (w.group, Next(w, s).group);
            && (id in g'.assignment <==> id in g.assignment && id in g'.members)
            && (id in g'.assignment ==> g'.assignment[id] == g.assignment[id])
  {
    hide Balanced, Registered;
  }

  // The step changes who is to share, and someone is there to share: a member joins that is new, or joins while a
  // rebalance is due; or a member leaves or expires, or asks to leave, and others stay.
  predicate CallsForRebalance(w: World, s: Step) {
    var members := w.group.members;
    match s
    case Join(id, _, _) => id !in members || w.group.phase != Stable
    case Leave(id) => members.Keys - {id} != {}
    case Expire(now, timeout) =>
      && (exists id <- members :: now - members[id].lastHeartbeat > timeout)
      && (exists id <- members :: now - members[id].lastHeartbeat <= timeout)
    case _ => false
  }

  function Calls(run: seq<World>, steps: seq<Step>): nat
    requires |run| == |steps| + 1
  {
    if steps == [] then 0
    else
      var n := |steps| - 1;
      Calls(run[..n + 1], steps[..n]) + if CallsForRebalance(run[n], steps[n]) then 1 else 0
  }

  lemma CallStep(w: World, s: Step)
    requires Enabled(w, s)
    ensures RebalancesAhead(Next(w, s)) + (if s.Rebalance? then 1 else 0)
            <= RebalancesAhead(w) + if CallsForRebalance(w, s) then 1 else 0
    ensures CallsForRebalance(w, s) ==> Next(w, s).group.phase == PreRebalance && Next(w, s).group.token
    ensures !CallsForRebalance(w, s) && !s.Rebalance? && !s.Leave? ==> Next(w, s).group.phase == w.group.phase
  {
    hide Balanced, Registered;
    if s.Expire? {
      ExpireCalls(w.group, s.now, s.timeout);
    }
  }

  lemma ExpireCalls(g: GroupState, now: int, timeout: int)
    ensures Stale(g, now, timeout) != {} <==> exists id <- g.members :: now - g.members[id].lastHeartbeat > timeout
    ensures g.members - Stale(g, now, timeout) != map[] <==> exists id <- g.members :: now - g.members[id].lastHeartbeat <= timeout
  {
    var gone := Stale(g, now, timeout);
    forall id <- g.members ensures id in gone <==> now - g.members[id].lastHeartbeat > timeout {
    }
    if g.members - gone != map[] {
      var id := SomeMember((g.members - gone).Keys);
      assert id in g.members && now - g.members[id].lastHeartbeat <= timeout;
    }
    if id :| id in g.members && now - g.members[id].lastHeartbeat <= timeout {
      assert id in g.members - gone;
    }
  }

  /** No rebalance without a cause: there are never more of them than steps that called for one. */
  lemma {:induction false} RebalancesAreCalledFor(run: seq<World>, steps: seq<Step>)
    requires IsRun(run, steps) && run[0] == START
    ensures RebalancesAhead(run[|steps|]) + Rebalances(steps) <= Calls(run, steps)
  {
    hide Next, Enabled, CallsForRebalance;
    if steps != [] {
      var n := |steps| - 1;
      RebalancesAreCalledFor(run[..n + 1], steps[..n]);
      assert run[..n + 1][n] == run[n] && Enabled(run[n], steps[n]) && run[n + 1] == Next(run[n], steps[n]);
      CallStep(run[n], steps[n]);
    } else {
      assert RebalancesAhead(START) == 0;
    }
  }
}
