/** A consumer group and its coordinator (internal/consumer/group.go, coordinator.go). */
module ConsumerGroups {
  import opened Basics
  import opened Listings
  import opened RoundRobin

  datatype Phase = Empty | PreRebalance | CompletingRebalance | Stable

  datatype Member = Member(topics: seq<string>, lastHeartbeat: int)

  // `token` is the wake-up waiting in the channel, which has room for one.
  datatype GroupState = GroupState(
    phase: Phase,
    generation: int,
    members: map<string, Member>,
    assignment: map<string, seq<int>>,
    counts: map<string, int>,
    token: bool)

  const NEW_GROUP := GroupState(Empty, 0, map[], map[], map[], false)

  datatype SyncReply = Shares(parts: seq<int>) | GenerationMismatch | NoAssignment

  datatype BeatReply = Known(rebalanceNeeded: bool) | UnknownMember

  // A topic not seen before counts one partition until the coordinator says otherwise.
  function Registered(counts: map<string, int>, topics: seq<string>): map<string, int>
    decreases |topics|
  {
    if topics == [] then counts
    else Registered(if topics[0] in counts then counts else counts[topics[0] := 1], topics[1..])
  }

  // Known counts stay as they are, and the other topics named count one.
  lemma {:induction false} RegisteredIs(counts: map<string, int>, topics: seq<string>, t: string)
    ensures t in Registered(counts, topics) <==> t in counts || t in topics
    ensures t in Registered(counts, topics) ==> Registered(counts, topics)[t] == if t in counts then counts[t] else 1
    decreases |topics|
  {
    if topics != [] {
      RegisteredIs(if topics[0] in counts then counts else counts[topics[0] := 1], topics[1..], t);
    }
  }

  function Woken(g: GroupState): GroupState {
    g.(phase := PreRebalance, token := true)
  }

  function Joined(g: GroupState, id: string, topics: seq<string>, now: int): GroupState {
    var g' := g.(members := g.members[id := Member(topics, now)], counts := Registered(g.counts, topics));
    if id !in g.members || g.phase != Stable then Woken(g') else g'
  }

  function Left(g: GroupState, id: string): GroupState {
    var g' := g.(members := g.members - {id}, assignment := g.assignment - {id});
    if g'.members != map[] then Woken(g') else g'.(phase := Empty)
  }

  function Beaten(g: GroupState, id: string, now: int): GroupState {
    if id in g.members then g.(members := g.members[id := g.members[id].(lastHeartbeat := now)]) else g
  }

  function Synced(g: GroupState, id: string, generation: int): SyncReply {
    if g.generation != generation then GenerationMismatch
    else if id !in g.assignment then NoAssignment
    else Shares(g.assignment[id])
  }

  function Stale(g: GroupState, now: int, timeout: int): set<string> {
    set id | id in g.members && now - g.members[id].lastHeartbeat > timeout
  }

  function Expired(g: GroupState, now: int, timeout: int): GroupState {
    var gone := Stale(g, now, timeout);
    var g' := g.(members := g.members - gone, assignment := g.assignment - gone);
    if gone != {} && g'.members != map[] then Woken(g') else g'
  }

  // What is left of g are its members not silent for longer than the timeout, and all shares but those of the others.
  ghost predicate HeardOf(g': GroupState, g: GroupState, now: int, timeout: int) {
    && (forall id :: id in g'.members <==> id in g.members && now - g.members[id].lastHeartbeat <= timeout)
    && (forall id <- g'.members :: g'.members[id] == g.members[id])
    && (forall id :: id in g'.assignment <==> id in g.assignment && (id in g.members ==> id in g'.members))
    && (forall id <- g'.assignment :: g'.assignment[id] == g.assignment[id])
  }

  lemma ExpiredIs(g: GroupState, now: int, timeout: int)
    ensures HeardOf(Expired(g, now, timeout), g, now, timeout)
  {
  }

  // The coordinator's counts replace the known ones where positive.
  function Updated(g: GroupState, counts: string -> int): GroupState {
    g.(counts := map t | t in g.counts :: if counts(t) > 0 then counts(t) else g.counts[t])
  }

  ghost function Rebalanced(g: GroupState): GroupState {
    g.(phase := Stable, generation := g.generation + 1, assignment := Balanced(g.members.Keys, g.counts))
  }

  class Group {
    const ID: string
    const sessionTimeout: int
    var state: Phase
    var generation: int
    var members: map<string, Member>
    var assignment: map<string, seq<int>>
    var topicPartitions: map<string, int>
    // Whether the one-place wake-up channel is full.
    var rebalanceCh: bool

    function State(): GroupState
      reads this
    {
      GroupState(state, generation, members, assignment, topicPartitions, rebalanceCh)
    }

    constructor (id: string, sessionTimeout: int)
      ensures State() == NEW_GROUP && ID == id && this.sessionTimeout == sessionTimeout
    {
      ID, this.sessionTimeout := id, sessionTimeout;
      state, generation, members, assignment, topicPartitions, rebalanceCh := Empty, 0, map[], map[], map[], false;
    }

    /** A new member, or any member of a group that is not stable, makes the group rebalance. */
    method Join(memberID: string, topics: seq<string>, now: int) returns (gen: int, memberList: seq<string>, stable: bool)
      modifies this
      ensures State() == Joined(old(State()), memberID, topics, now)
      ensures topicPartitions.Keys == old(topicPartitions).Keys + set t | t in topics
      ensures forall t <- topicPartitions ::
                topicPartitions[t] == if t in old(topicPartitions) then old(topicPartitions)[t] else 1
      ensures gen == old(generation) && Enumerates(memberList, members.Keys) && memberID in memberList
      ensures stable <==> old(state) == Stable && memberID in old(members)
    {
      var isNew := memberID !in members;
      members := members[memberID := Member(topics, now)];
      for i := 0 to |topics|
        invariant Registered(topicPartitions, topics[i..]) == Registered(old(topicPartitions), topics)
        invariant unchanged(`state, `generation, `assignment, `rebalanceCh)
        invariant members == old(members)[memberID := Member(topics, now)]
      {
        assert topics[i..][1..] == topics[i + 1..];
        if topics[i] !in topicPartitions {
          topicPartitions := topicPartitions[topics[i] := 1];
        }
      }
      forall t
        ensures t in topicPartitions <==> t in old(topicPartitions) || t in topics
        ensures t in topicPartitions ==>
                  topicPartitions[t] == if t in old(topicPartitions) then old(topicPartitions)[t] else 1
      {
        RegisteredIs(old(topicPartitions), topics, t);
      }
      gen := generation;
      memberList := memberIDs();
      if isNew || state != Stable {
        wake();
      }
      stable := state == Stable;
    }

    method wake()
      modifies `state, `rebalanceCh
      ensures State() == Woken(old(State()))
    {
      state := PreRebalance;
      if !rebalanceCh {
        rebalanceCh := true;
      }
    }

    /** A member leaving takes its share with it; what is left of the group rebalances. */
    method Leave(memberID: string)
      modifies this
      ensures State() == Left(old(State()), memberID)
      ensures state == if members == map[] then Empty else PreRebalance
    {
      members := members - {memberID};
      assignment := assignment - {memberID};
      if |members| > 0 {
        wake();
      } else {
        state := Empty;
      }
    }

    method Heartbeat(memberID: string, generation: int, now: int) returns (reply: BeatReply)
      modifies `members
      ensures State() == Beaten(old(State()), memberID, now)
      ensures reply == if memberID in old(members) then Known(old(state) != Stable) else UnknownMember
    {
      if memberID !in members {
        return UnknownMember;
      }
      members := members[memberID := members[memberID].(lastHeartbeat := now)];
      reply := Known(state != Stable);
    }

    method Sync(memberID: string, generation: int) returns (reply: SyncReply)
      ensures reply == Synced(State(), memberID, generation)
      ensures reply == GenerationMismatch <==> generation != this.generation
      ensures reply == NoAssignment <==> generation == this.generation && memberID !in assignment
      ensures memberID in assignment && generation == this.generation ==> reply == Shares(assignment[memberID])
    {
      if this.generation != generation {
        return GenerationMismatch;
      }
      if memberID !in assignment {
        return NoAssignment;
      }
      reply := Shares(assignment[memberID]);
    }

    method SetTopicPartitionCount(topic: string, count: int)
      modifies `topicPartitions
      ensures topicPartitions == old(topicPartitions)[topic := count]
    {
      topicPartitions := topicPartitions[topic := count];
    }

    // The keys of the member map, in whatever order it is walked.
    method memberIDs() returns (ids: seq<string>)
      ensures Enumerates(ids, members.Keys)
    {
      ids := [];
      var rest := members.Keys;
      while rest != {}
        invariant rest <= members.Keys && Enumerates(ids, members.Keys - rest)
        decreases |rest|
      {
        var id := AnyOf(rest);
        ids := ids + [id];
        rest := rest - {id};
      }
    }

    // One tick of the heartbeat watcher.
    method expire(now: int)
      modifies this
      ensures State() == Expired(old(State()), now, sessionTimeout)
      ensures HeardOf(State(), old(State()), now, sessionTimeout)
    {
      hide Stale;
      var expired := sweep(now);
      if expired && |members| > 0 {
        wake();
      }
      ExpiredIs(old(State()), now, sessionTimeout);
    }

    // Drops the members that have been silent for too long.
    method sweep(now: int) returns (expired: bool)
      modifies `members, `assignment
      ensures var gone := Stale(old(State()), now, sessionTimeout);
              && members == old(members) - gone && assignment == old(assignment) - gone && (expired <==> gone != {})
    {
      hide Stale;
      ghost var g := State();
      ghost var gone := Stale(g, now, sessionTimeout);
      StaleAreMembers(g, now, sessionTimeout);
      SweepStart(g, gone);
      expired := false;
      var rest := members.Keys;
      while rest != {}
        invariant rest <= g.members.Keys && Swept(State(), g, gone, rest)
        invariant expired <==> gone - rest != {}
        decreases |rest|
      {
        var id := AnyOf(rest);
        StaleIff(g, now, sessionTimeout, id);
        SweepOne(g, gone, rest, id);
        if now - members[id].lastHeartbeat > sessionTimeout {
          members := members - {id};
          assignment := assignment - {id};
          expired := true;
        }
        rest := rest - {id};
      }
    }

    // The partitions of all topics, in whatever order the topics are walked.
    method collectParts() returns (all: seq<Part>)
      ensures Enumerates(all, Parts(topicPartitions))
    {
      all := [];
      var rest := topicPartitions.Keys;
      while rest != {}
        invariant rest <= topicPartitions.Keys && Enumerates(all, Parts(topicPartitions - rest))
        decreases |rest|
      {
        var topic := AnyOf(rest);
        PartsWithTopic(topicPartitions, rest, topic);
        all := addTopic(all, topic, topicPartitions[topic], Parts(topicPartitions - rest));
        rest := rest - {topic};
      }
      assert topicPartitions - {} == topicPartitions;
    }

    static method addTopic(all: seq<Part>, topic: string, count: int, ghost S: set<Part>) returns (r: seq<Part>)
      requires Enumerates(all, S) && forall p <- S :: p.topic != topic
      ensures Enumerates(r, S + FirstParts(topic, count))
    {
      r := all;
      var i := 0;
      while i < count
        invariant 0 <= i && (i <= count || i == 0) && Enumerates(r, S + FirstParts(topic, i))
      {
        EnumerateOneMore(r, S + FirstParts(topic, i), Part(topic, i));
        FirstPartsStep(topic, i);
        assert S + FirstParts(topic, i + 1) == S + FirstParts(topic, i) + {Part(topic, i)};
        r := r + [Part(topic, i)];
        i := i + 1;
      }
      FirstPartsNone(topic, count, i);
    }

    static method emptyShares(members: seq<string>) returns (shares: map<string, seq<int>>)
      ensures forall k :: k in shares <==> k in members
      ensures forall k <- shares :: shares[k] == []
    {
      shares := map[];
      for j := 0 to |members|
        invariant forall k :: k in shares <==> k in members[..j]
        invariant forall k <- shares :: shares[k] == []
      {
        shares := shares[members[j] := []];
      }
      assert members[..|members|] == members;
    }

    // Position by position, the next member in turn gets the next partition.
    static method spread(members: seq<string>, ps: seq<Part>) returns (newAssignment: map<string, seq<int>>)
      requires forall i, j :: 0 <= i < j < |members| ==> members[i] != members[j]
      ensures newAssignment == Assignment(members, ps)
    {
      newAssignment := emptyShares(members);
      for i := 0 to |ps|
        invariant IsSpread(newAssignment, members, ps, i)
      {
        if |members| == 0 {
          break;
        }
        SpreadStep(newAssignment, members, ps, i);
        var m := members[i % |members|];
        newAssignment := newAssignment[m := newAssignment[m] + [ps[i].part]];
      }
      SpreadDone(newAssignment, members, ps);
    }

    /** A rebalance opens the next generation with the round robin over the members and partitions of now. */
    method Rebalance() returns (newAssignment: map<string, seq<int>>)
      modifies `state, `generation, `assignment
      ensures State() == Rebalanced(old(State())) && newAssignment == assignment
      ensures newAssignment.Keys == members.Keys && SharedInTurn(newAssignment, topicPartitions)
    {
      state := CompletingRebalance;
      generation := generation + 1;
      var allParts := collectParts();
      SortedIsTheListing(allParts, Parts(topicPartitions));
      allParts := Sorted(allParts, Earlier);
      var ids := memberIDs();
      SortedMembers(ids, members.Keys);
      ids := Sorted(ids, Before);
      newAssignment := spread(ids, allParts);
      assignment := newAssignment;
      state := Stable;
      AllInTurn(members.Keys, topicPartitions);
    }
  }

  class Coordinator {
    var groups: map<string, Group>
    // The groups for which a watcher has been started, in order.
    var watched: seq<Group>

    // Every group has exactly one watcher, and every watcher a group.
    ghost predicate Valid()
      reads this
    {
      && (forall id <- groups :: groups[id].ID == id && groups[id] in watched)
      && (forall g <- watched :: g.ID in groups && groups[g.ID] == g)
      && (forall i, j :: 0 <= i < j < |watched| ==> watched[i] != watched[j])
    }

    constructor ()
      ensures Valid() && groups == map[]
    {
      groups, watched := map[], [];
    }

    /** A group is created, and its watcher started, only the first time it is asked for. */
    method GetOrCreateGroup(id: string, sessionTimeoutMs: int) returns (g: Group)
      requires Valid()
      modifies this
      ensures Valid() && id in groups && groups[id] == g
      ensures id in old(groups) ==> groups == old(groups) && watched == old(watched)
      ensures id !in old(groups) ==>
                fresh(g) && g.State() == NEW_GROUP && g.sessionTimeout == sessionTimeoutMs
                && groups == old(groups)[id := g] && watched == old(watched) + [g]
    {
      if id in groups {
        return groups[id];
      }
      g := new Group(id, sessionTimeoutMs);
      groups := groups[id := g];
      watched := watched + [g];
    }

    // The first half of a watcher's turn: the counts of the topics the group knows.
    method updateCounts(g: Group, topicPartitionsFn: string -> int)
      modifies g`topicPartitions
      ensures g.State() == Updated(old(g.State()), topicPartitionsFn)
    {
      var known := g.topicPartitions;
      var rest := known.Keys;
      while rest != {}
        invariant rest <= known.Keys == g.topicPartitions.Keys
        invariant forall t <- known ::
                    g.topicPartitions[t] == if t !in rest && topicPartitionsFn(t) > 0 then topicPartitionsFn(t) else known[t]
        decreases |rest|
      {
        var topic := AnyOf(rest);
        var count := topicPartitionsFn(topic);
        if count > 0 {
          g.topicPartitions := g.topicPartitions[topic := count];
        }
        rest := rest - {topic};
      }
    }

    // A watcher's turn, when nothing comes between its halves.
    method watchTurn(g: Group, topicPartitionsFn: string -> int)
      modifies g
      ensures g.State() == Rebalanced(Updated(old(g.State()), topicPartitionsFn))
    {
      updateCounts(g, topicPartitionsFn);
      var assignment := g.Rebalance();
    }
  }

  function FirstParts(topic: string, count: int): set<Part> {
    set i | 0 <= i < count :: Part(topic, i)
  }

  lemma FirstPartsStep(topic: string, i: nat)
    ensures FirstParts(topic, i + 1) == FirstParts(topic, i) + {Part(topic, i)}
    ensures Part(topic, i) !in FirstParts(topic, i)
  {
  }

  lemma FirstPartsNone(topic: string, count: int, i: int)
    requires (count <= 0 && i == 0) || i == count
    ensures FirstParts(topic, i) == FirstParts(topic, count)
  {
  }

  lemma EnumerateOneMore<T(!new)>(s: seq<T>, S: set<T>, x: T)
    requires Enumerates(s, S) && x !in S
    ensures Enumerates(s + [x], S + {x})
  {
  }

  lemma PartsWithTopic(counts: map<string, int>, rest: set<string>, topic: string)
    requires topic in rest && rest <= counts.Keys
    ensures Parts(counts - (rest - {topic})) == Parts(counts - rest) + FirstParts(topic, counts[topic])
    ensures forall p <- Parts(counts - rest) :: p.topic != topic
  {
    var more, less := counts - (rest - {topic}), counts - rest;
    forall p ensures p in Parts(more) <==> p in Parts(less) + FirstParts(topic, counts[topic]) {
      if p in Parts(more) {
        assert p == Part(p.topic, p.part);
      }
    }
  }

  lemma SortedIsTheListing(s: seq<Part>, S: set<Part>)
    requires Enumerates(s, S)
    ensures StrictTotal(Earlier) && Sorted(s, Earlier) == Listing(S, Earlier)
  {
    EarlierIsTotal();
    SortedIsListing(s, S, Earlier);
    ListingIsUnique(Sorted(s, Earlier), Listing(S, Earlier), S, Earlier);
  }

  lemma SortedMembers(s: seq<string>, S: set<string>)
    requires Enumerates(s, S)
    ensures StrictTotal(Before) && Sorted(s, Before) == Listing(S, Before)
    ensures var r := Sorted(s, Before); forall i, j :: 0 <= i < j < |r| ==> r[i] != r[j]
  {
    BeforeIsTotal();
    SortedIsListing(s, S, Before);
    ListingIsUnique(Sorted(s, Before), Listing(S, Before), S, Before);
  }

  lemma StaleAreMembers(g: GroupState, now: int, timeout: int)
    ensures Stale(g, now, timeout) <= g.members.Keys
  {
  }

  lemma StaleIff(g: GroupState, now: int, timeout: int, id: string)
    ensures id in Stale(g, now, timeout) <==> id in g.members && now - g.members[id].lastHeartbeat > timeout
  {
  }

  // The walk over g has still to see `rest`, and has dropped what is gone otherwise.
  ghost predicate Swept(now: GroupState, g: GroupState, gone: set<string>, rest: set<string>) {
    now == g.(members := g.members - (gone - rest), assignment := g.assignment - (gone - rest))
  }

  lemma SweepStart(g: GroupState, gone: set<string>)
    requires gone <= g.members.Keys
    ensures Swept(g, g, gone, g.members.Keys) && gone - g.members.Keys == {}
  {
    assert g.members - {} == g.members && g.assignment - {} == g.assignment;
  }

  lemma SweepOne(g: GroupState, gone: set<string>, rest: set<string>, id: string)
    requires id in rest && rest <= g.members.Keys
    ensures var done := gone - rest;
      && id in g.members - done && (g.members - done)[id] == g.members[id]
      && g.members - (gone - (rest - {id})) == (if id in gone then g.members - done - {id} else g.members - done)
      && g.assignment - (gone - (rest - {id})) == (if id in gone then g.assignment - done - {id} else g.assignment - done)
      && (gone - (rest - {id}) != {} <==> id in gone || done != {})
  {
    var done := gone - rest;
    if id in gone {
      assert gone - (rest - {id}) == done + {id};
      MinusOneMore(g.members, done, id);
      MinusOneMore(g.assignment, done, id);
    } else {
      assert gone - (rest - {id}) == done;
    }
  }

  lemma MinusOneMore<K, V>(m: map<K, V>, keys: set<K>, k: K)
    ensures m - keys - {k} == m - (keys + {k})
  {
  }

  // The first i partitions have been spread.
  ghost predicate IsSpread(shares: map<string, seq<int>>, members: seq<string>, ps: seq<Part>, i: nat) {
    && i <= |ps|
    && (forall k :: k in shares <==> k in members)
    && (forall j: nat :: j < |members| ==> shares[members[j]] == Share(ps[..i], j, |members|))
  }

  lemma ShareGrows(ps: seq<Part>, i: nat, j: nat, m: nat)
    requires m > 0 && i < |ps|
    ensures Share(ps[..i + 1], j, m) == if i % m == j then Share(ps[..i], j, m) + [ps[i].part] else Share(ps[..i], j, m)
  {
    assert ps[..i + 1][..i] == ps[..i];
  }

  lemma SpreadStep(shares: map<string, seq<int>>, members: seq<string>, ps: seq<Part>, i: nat)
    requires IsSpread(shares, members, ps, i) && i < |ps| && members != []
    requires forall i, j :: 0 <= i < j < |members| ==> members[i] != members[j]
    ensures var m := members[i % |members|];
            m in shares && IsSpread(shares[m := shares[m] + [ps[i].part]], members, ps, i + 1)
  {
    hide Share;
    var t := i % |members|;
    var shares' := shares[members[t] := shares[members[t]] + [ps[i].part]];
    forall j: nat | j < |members| ensures shares'[members[j]] == Share(ps[..i + 1], j, |members|) {
      ShareGrows(ps, i, j, |members|);
      assert j != t ==> members[j] != members[t];
    }
  }

  lemma SpreadDone(shares: map<string, seq<int>>, members: seq<string>, ps: seq<Part>)
    requires IsSpread(shares, members, ps, |ps|) || (members == [] && forall k :: k !in shares)
    requires forall i, j :: 0 <= i < j < |members| ==> members[i] != members[j]
    ensures shares == Assignment(members, ps)
  {
    hide Share;
    assert ps[..|ps|] == ps;
    forall k | k in members ensures shares[k] == Assignment(members, ps)[k] {
      assert members[IndexOf(members, k)] == k;
    }
  }
}
