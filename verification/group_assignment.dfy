/** The round-robin allocator (internal/consumer/group.go). */
module RoundRobin {
  import opened Basics
  import opened Listings

  datatype Part = Part(topic: string, part: int)

  // Topics in order, and within a topic partitions in order.
  predicate Earlier(a: Part, b: Part) {
    if a.topic != b.topic then Before(a.topic, b.topic) else a.part < b.part
  }

  lemma EarlierIsTotal()
    ensures StrictTotal(Earlier)
  {
    BeforeIsTotal();
    forall a: Part, b: Part ensures !Earlier(a, a) && (Earlier(a, b) || a == b || Earlier(b, a)) {
      assert Before(a.topic, b.topic) || a.topic == b.topic || Before(b.topic, a.topic);
    }
    forall a: Part, b: Part, c: Part | Earlier(a, b) && Earlier(b, c) ensures Earlier(a, c) {
      assert Before(a.topic, b.topic) && Before(b.topic, c.topic) ==> Before(a.topic, c.topic);
      assert !Before(a.topic, a.topic);
      assert Before(a.topic, b.topic) && Before(b.topic, a.topic) ==> Before(a.topic, a.topic);
    }
  }

  // Every partition of every topic.
  function Parts(counts: map<string, int>): set<Part> {
    set t, i | t in counts && 0 <= i < counts[t] :: Part(t, i)
  }

  // The ids at the positions congruent to j.
  function Share(ps: seq<Part>, j: nat, m: nat): seq<int>
    requires m > 0
  {
    if ps == [] then []
    else
      var n := |ps| - 1;
      Share(ps[..n], j, m) + if n % m == j then [ps[n].part] else []
  }

  // How many of n positions are congruent to j.
  function Turns(n: nat, j: nat, m: nat): nat
    requires m > 0
  {
    if n <= j then 0 else (n - j - 1) / m + 1
  }

  lemma TurnsStep(n: nat, j: nat, m: nat)
    requires m > 0 && j < m
    ensures n % m == j ==> n == j + Turns(n, j, m) * m && Turns(n + 1, j, m) == Turns(n, j, m) + 1
    ensures n % m != j ==> Turns(n + 1, j, m) == Turns(n, j, m)
  {
    if n >= j {
      DivModStep(n - j, m);
      assert (n - j) % m == 0 <==> n % m == j by {
        SameRemainder(n, j, m);
      }
    }
  }

  lemma DivModStep(d: nat, m: nat)
    requires m > 0
    ensures d % m == 0 ==> d == d / m * m && (d > 0 ==> (d - 1) / m + 1 == d / m)
    ensures d % m != 0 ==> d > 0 && (d - 1) / m == d / m
  {
    var q, r := d / m, d % m;
    assert d == q * m + r;
    if r == 0 && d > 0 {
      QuotientIs(d - 1, q - 1, m - 1, m);
    } else if r > 0 {
      QuotientIs(d - 1, q, r - 1, m);
    }
  }

  lemma SameRemainder(a: nat, j: nat, m: nat)
    requires m > 0 && j < m && a >= j
    ensures (a - j) % m == 0 <==> a % m == j
  {
    var q, r := a / m, a % m;
    assert a == q * m + r;
    if r >= j {
      QuotientIs(a - j, q, r - j, m);
    } else {
      assert a - j == (q - 1) * m + (r - j + m);
      QuotientIs(a - j, q - 1, r - j + m, m);
    }
  }

  /** Member j gets exactly the partitions at the positions congruent to j, in order. */
  lemma {:induction false} ShareIs(ps: seq<Part>, j: nat, m: nat)
    requires j < m
    ensures |Share(ps, j, m)| == Turns(|ps|, j, m)
    ensures forall k :: 0 <= k < |Share(ps, j, m)| ==> 0 <= j + k * m < |ps| && Share(ps, j, m)[k] == ps[j + k * m].part
  {
    if ps != [] {
      ShareIs(ps[..|ps| - 1], j, m);
      TurnsStep(|ps| - 1, j, m);
    }
  }

  /** Any two members' shares differ in size by at most one. */
  lemma SharesAreEven(ps: seq<Part>, i: nat, j: nat, m: nat)
    requires i <= j < m
    ensures |Share(ps, j, m)| <= |Share(ps, i, m)| <= |Share(ps, j, m)| + 1
  {
    ShareIs(ps, i, m);
    ShareIs(ps, j, m);
    TurnsEven(|ps|, i, j, m);
  }

  lemma {:induction false} TurnsEven(n: nat, i: nat, j: nat, m: nat)
    requires i <= j < m
    ensures Turns(n, j, m) <= Turns(n, i, m) <= Turns(n, j, m) + 1
  {
    if n > j {
      var a, b := n - i - 1, n - j - 1;
      assert a / m >= b / m by { DivMonotone(b, a, m); }
      assert a / m <= b / m + 1 by {
        DivMonotone(a, b + m, m);
        QuotientIs(b + m, b / m + 1, b % m, m);
      }
    } else if n > i {
      QuotientIs(n - i - 1, 0, n - i - 1, m);
    }
  }

  lemma DivMonotone(a: nat, b: nat, m: nat)
    requires m > 0 && a <= b
    ensures a / m <= b / m
  {
    assert a == a / m * m + a % m && b == b / m * m + b % m;
    if a / m > b / m {
      TimesMonotone(b / m, a / m, m);
    }
  }

  function Ids(ps: seq<Part>): seq<int> {
    if ps == [] then [] else Ids(ps[..|ps| - 1]) + [ps[|ps| - 1].part]
  }

  // What the first j members get between them.
  function HandedOut(ps: seq<Part>, j: nat, m: nat): multiset<int>
    requires m > 0
  {
    if j == 0 then multiset{} else HandedOut(ps, j - 1, m) + multiset(Share(ps, j - 1, m))
  }

  lemma ShareStep(ps: seq<Part>, j: nat, m: nat)
    requires m > 0 && ps != []
    ensures var n := |ps| - 1;
            multiset(Share(ps, j, m)) == multiset(Share(ps[..n], j, m)) + if n % m == j then multiset{ps[n].part} else multiset{}
  {
  }

  lemma SomeoneGets<T>(a: multiset<T>, b: multiset<T>, x: T, before: bool, here: bool)
    requires !(before && here)
    ensures (a + if before then multiset{x} else multiset{}) + (b + if here then multiset{x} else multiset{})
            == (a + b) + if before || here then multiset{x} else multiset{}
  {
  }

  lemma HandedOutIs(ps: seq<Part>, j: nat, m: nat)
    requires m > 0
    ensures HandedOut(ps, j, m)
            == if j == 0 then multiset{} else HandedOut(ps, j - 1, m) + multiset(Share(ps, j - 1, m))
  {
  }

  lemma {:induction false} HandedOutStep(ps: seq<Part>, j: nat, m: nat)
    requires m > 0 && ps != []
    ensures var n := |ps| - 1;
            HandedOut(ps, j, m) == HandedOut(ps[..n], j, m) + if n % m < j then multiset{ps[n].part} else multiset{}
  {
    hide Share, HandedOut;
    var n := |ps| - 1;
    var front, last := ps[..n], ps[n].part;
    HandedOutIs(ps, j, m);
    HandedOutIs(front, j, m);
    if j > 0 {
      HandedOutStep(ps, j - 1, m);
      ShareStep(ps, j - 1, m);
      SomeoneGets(HandedOut(front, j - 1, m), multiset(Share(front, j - 1, m)), last, n % m < j - 1, n % m == j - 1);
    }
  }

  lemma {:induction false} NothingHandedOut(j: nat, m: nat)
    requires m > 0
    ensures HandedOut([], j, m) == multiset{}
  {
    if j > 0 {
      NothingHandedOut(j - 1, m);
    }
  }

  /** The members get everything between them, and nothing twice. */
  lemma {:induction false} AllHandedOut(ps: seq<Part>, m: nat)
    requires m > 0
    ensures HandedOut(ps, m, m) == multiset(Ids(ps))
  {
    if ps == [] {
      NothingHandedOut(m, m);
    } else {
      AllHandedOut(ps[..|ps| - 1], m);
      HandedOutStep(ps, m, m);
    }
  }

  function TopicsWith(ps: seq<Part>, id: int): set<string> {
    set p | p in ps && p.part == id :: p.topic
  }

  lemma TopicsWithStep(front: seq<Part>, p: Part, id: int)
    ensures TopicsWith(front + [p], id) == TopicsWith(front, id) + if p.part == id then {p.topic} else {}
  {
    forall t ensures t in TopicsWith(front + [p], id) <==> t in TopicsWith(front, id) || (p.part == id && t == p.topic) {
      assert t in TopicsWith(front, id) <==> Part(t, id) in front;
      assert t in TopicsWith(front + [p], id) <==> Part(t, id) in front + [p];
    }
  }

  lemma {:induction false} IdCount(ps: seq<Part>, id: int)
    requires forall i, j :: 0 <= i < j < |ps| ==> ps[i] != ps[j]
    ensures multiset(Ids(ps))[id] == |TopicsWith(ps, id)|
  {
    if ps != [] {
      var front, p := ps[..|ps| - 1], ps[|ps| - 1];
      IdCount(front, id);
      assert ps == front + [p];
      TopicsWithStep(front, p, id);
      assert p.topic in TopicsWith(front, id) <==> Part(p.topic, id) in front;
    }
  }

  /** Each partition id is handed out as often as there are topics that have it. */
  lemma HandedOutPerTopic(counts: map<string, int>, m: nat, id: nat)
    requires m > 0
    ensures StrictTotal(Earlier)
    ensures HandedOut(Listing(Parts(counts), Earlier), m, m)[id] == |set t | t in counts && id < counts[t]|
  {
    EarlierIsTotal();
    var ps := Listing(Parts(counts), Earlier);
    AllHandedOut(ps, m);
    IdCount(ps, id);
    forall t ensures t in TopicsWith(ps, id) <==> t in counts && id < counts[t] {
      assert Part(t, id) in ps <==> Part(t, id) in Parts(counts);
    }
    assert TopicsWith(ps, id) == set t | t in counts && id < counts[t];
  }

  lemma {:induction false} ShareHas(ps: seq<Part>, j: nat, m: nat, id: int)
    requires m > 0
    ensures id in Share(ps, j, m) <==> exists i :: 0 <= i < |ps| && i % m == j && ps[i].part == id
  {
    if ps != [] {
      var n := |ps| - 1;
      ShareHas(ps[..n], j, m, id);
      assert forall i :: 0 <= i < n ==> ps[..n][i] == ps[i];
      assert (exists i :: 0 <= i < |ps| && i % m == j && ps[i].part == id)
             <==> (n % m == j && ps[n].part == id) || exists i :: 0 <= i < n && i % m == j && ps[i].part == id;
    }
  }

  // No id goes to two members.
  ghost predicate Disjoint(ps: seq<Part>, m: nat)
    requires m > 0
  {
    forall a, b, id :: 0 <= a < b < m ==> !(id in Share(ps, a, m) && id in Share(ps, b, m))
  }

  // ps lists the partitions of topics with these counts.
  ghost predicate Lists(ps: seq<Part>, counts: map<string, int>) {
    IsListing(ps, Parts(counts), Earlier)
  }

  lemma NothingBetween(t: string, p: int, x: Part)
    ensures !(Earlier(Part(t, p - 1), x) && Earlier(x, Part(t, p)))
  {
    BeforeIsTotal();
    hide Before;
    assert Before(t, x.topic) && Before(x.topic, t) ==> Before(t, t);
  }

  lemma EarlierFirst(ps: seq<Part>, counts: map<string, int>, i: nat, k: nat)
    requires Lists(ps, counts) && i < |ps| && k < |ps| && Earlier(ps[i], ps[k])
    ensures i < k
  {
    EarlierIsTotal();
    hide Earlier;
  }

  // Just before partition p > 0 of a topic comes partition p - 1.
  lemma Predecessor(ps: seq<Part>, counts: map<string, int>, i: int)
    requires Lists(ps, counts) && 0 <= i < |ps| && ps[i].part > 0
    ensures i > 0 && ps[i - 1] == Part(ps[i].topic, ps[i].part - 1)
  {
    hide Before;
    EarlierIsTotal();
    var t, p := ps[i].topic, ps[i].part;
    assert ps[i] in Parts(counts);
    assert Part(t, p - 1) in Parts(counts);
    var k :| 0 <= k < |ps| && ps[k] == Part(t, p - 1);
    EarlierFirst(ps, counts, k, i);
    NothingBetween(t, p, ps[i - 1]);
  }

  lemma {:induction false} BlockStart(ps: seq<Part>, counts: map<string, int>, i: int)
    requires Lists(ps, counts) && 0 <= i < |ps|
    ensures 0 <= ps[i].part <= i && ps[i - ps[i].part] == Part(ps[i].topic, 0)
    decreases i
  {
    assert ps[i] in Parts(counts);
    if ps[i].part > 0 {
      Predecessor(ps, counts, i);
      BlockStart(ps, counts, i - 1);
    }
  }

  // Every topic's partition 0 falls to the first member.
  ghost predicate Aligned(ps: seq<Part>, m: nat)
    requires m > 0
  {
    forall i :: 0 <= i < |ps| && ps[i].part == 0 ==> i % m == 0
  }

  lemma SumsOfMultiples(a: nat, b: nat, m: nat)
    requires m > 0 && a % m == 0
    ensures (a + b) % m == b % m
  {
    assert a == a / m * m && b == b / m * m + b % m;
    assert a + b == (a / m + b / m) * m + b % m;
    QuotientIs(a + b, a / m + b / m, b % m, m);
  }

  lemma AlignedPosition(ps: seq<Part>, counts: map<string, int>, m: nat, i: nat)
    requires m > 0 && Lists(ps, counts) && Aligned(ps, m) && i < |ps|
    ensures ps[i].part >= 0 && i % m == ps[i].part % m
  {
    BlockStart(ps, counts, i);
    SumsOfMultiples(i - ps[i].part, ps[i].part, m);
  }

  lemma DisjointIffAligned(ps: seq<Part>, counts: map<string, int>, m: nat)
    requires m > 0 && Lists(ps, counts)
    ensures Disjoint(ps, m) <==> Aligned(ps, m)
  {
    hide Share;
    if Aligned(ps, m) {
      forall a, b, id | 0 <= a < b < m ensures !(id in Share(ps, a, m) && id in Share(ps, b, m)) {
        ShareHas(ps, a, m, id);
        ShareHas(ps, b, m, id);
        forall i: nat | i < |ps| ensures i % m == ps[i].part % m {
          AlignedPosition(ps, counts, m, i);
        }
      }
    } else {
      var i :| 0 <= i < |ps| && ps[i].part == 0 && i % m != 0;
      BlockStart(ps, counts, 0);
      assert 0 % m == 0;
      ShareHas(ps, 0, m, 0);
      ShareHas(ps, i % m, m, 0);
    }
  }

  // What a caller can check: all topics with partitions, but the last in order, have a multiple of m of them.
  ghost predicate Divisible(counts: map<string, int>, m: nat)
    requires m > 0
  {
    forall t, u :: t in counts && u in counts && counts[t] > 0 && counts[u] > 0 && Before(t, u) ==> counts[t] % m == 0
  }

  lemma IndexOfPart(ps: seq<Part>, counts: map<string, int>, t: string, p: int) returns (k: nat)
    requires Lists(ps, counts) && t in counts && 0 <= p < counts[t]
    ensures k < |ps| && ps[k] == Part(t, p)
  {
    assert Part(t, p) in Parts(counts);
    k :| 0 <= k < |ps| && ps[k] == Part(t, p);
  }

  // Where one topic ends and there is more, the next begins.
  lemma NextStart(ps: seq<Part>, counts: map<string, int>, t: string, u: string) returns (e: nat)
    requires Lists(ps, counts) && t in counts && u in counts && counts[t] > 0 && counts[u] > 0 && Before(t, u)
    ensures e + 1 < |ps| && ps[e] == Part(t, counts[t] - 1) && ps[e + 1].part == 0
  {
    e := IndexOfPart(ps, counts, t, counts[t] - 1);
    var k := IndexOfPart(ps, counts, u, 0);
    BeforeIsStrict(t, u);
    hide Before;
    EarlierFirst(ps, counts, e, k);
    assert ps[e + 1] in Parts(counts);
    if ps[e + 1].part > 0 {
      Predecessor(ps, counts, e + 1);
    }
  }

  lemma AlignedIsDivisible(ps: seq<Part>, counts: map<string, int>, m: nat)
    requires m > 0 && Lists(ps, counts) && Aligned(ps, m)
    ensures Divisible(counts, m)
  {
    forall t, u | t in counts && u in counts && counts[t] > 0 && counts[u] > 0 && Before(t, u) ensures counts[t] % m == 0 {
      var e := NextStart(ps, counts, t, u);
      BlockStart(ps, counts, e);
      SumsOfMultiples(e + 1 - counts[t], counts[t], m);
    }
  }

  // The last partition before a topic begins is the last of its own topic.
  lemma PreviousEnds(ps: seq<Part>, counts: map<string, int>, i: nat)
    requires Lists(ps, counts) && 0 < i < |ps| && ps[i].part == 0
    ensures var t := ps[i - 1].topic;
            t in counts && counts[t] == ps[i - 1].part + 1 > 0 && ps[i].topic in counts && counts[ps[i].topic] > 0
            && Before(t, ps[i].topic)
  {
    var t, p := ps[i - 1].topic, ps[i - 1].part;
    assert ps[i - 1] in Parts(counts) && ps[i] in Parts(counts) && Earlier(ps[i - 1], ps[i]);
    if p + 1 < counts[t] {
      var k := IndexOfPart(ps, counts, t, p + 1);
      hide Before;
      EarlierFirst(ps, counts, i - 1, k);
      NothingBetween(t, p + 1, ps[i]);
    }
  }

  lemma {:induction false} DivisibleIsAlignedAt(ps: seq<Part>, counts: map<string, int>, m: nat, i: nat)
    requires m > 0 && Lists(ps, counts) && Divisible(counts, m) && i < |ps| && ps[i].part == 0
    ensures i % m == 0
    decreases i
  {
    if i > 0 {
      PreviousEnds(ps, counts, i);
      BlockStart(ps, counts, i - 1);
      var c := counts[ps[i - 1].topic];
      DivisibleIsAlignedAt(ps, counts, m, i - c);
      SumsOfMultiples(i - c, c, m);
    }
  }

  /** No partition id is handed to two members exactly when every topic but the last divides evenly among them. */
  lemma DisjointIffDivisible(ps: seq<Part>, counts: map<string, int>, m: nat)
    requires m > 0 && Lists(ps, counts)
    ensures Disjoint(ps, m) <==> Divisible(counts, m)
  {
    DisjointIffAligned(ps, counts, m);
    if Aligned(ps, m) {
      AlignedIsDivisible(ps, counts, m);
    }
    if Divisible(counts, m) {
      forall i: nat | i < |ps| && ps[i].part == 0 ensures i % m == 0 {
        DivisibleIsAlignedAt(ps, counts, m, i);
      }
    }
  }

  // The assignment for sorted members and sorted partitions.
  function Assignment(members: seq<string>, ps: seq<Part>): map<string, seq<int>> {
    map k | k in members :: Share(ps, IndexOf(members, k), |members|)
  }

  function IndexOf(s: seq<string>, x: string): (i: nat)
    requires x in s
    ensures i < |s| && s[i] == x
  {
    if s[0] == x then 0 else 1 + IndexOf(s[1..], x)
  }

  /** The round robin over a set of members and the partitions of all topics: sorting makes it a function of the sets. */
  ghost function Balanced(members: set<string>, counts: map<string, int>): map<string, seq<int>> {
    BeforeIsTotal();
    EarlierIsTotal();
    Assignment(Listing(members, Before), Listing(Parts(counts), Earlier))
  }

  lemma BalancedKeys(members: set<string>, counts: map<string, int>)
    ensures Balanced(members, counts).Keys == members
  {
    BeforeIsTotal();
    EarlierIsTotal();
    hide Before, Earlier;
    forall k ensures k in Balanced(members, counts) <==> k in members {
      assert k in Listing(members, Before) <==> k in members;
    }
  }

  // The members before id.
  ghost function SmallerMembers(members: set<string>, id: string): set<string> {
    set x | x in members && Lexicographic(x, id)
  }

  // The partitions of topics before p's, and those of its own topic with smaller ids.
  ghost function EarlierParts(counts: map<string, int>, p: Part): set<Part> {
    set q | q in Parts(counts) && (Lexicographic(q.topic, p.topic) || (q.topic == p.topic && q.part < p.part))
  }

  lemma SmallerIs(members: set<string>, id: string)
    ensures SmallerMembers(members, id) == Under(members, Before, id)
  {
    hide Before, Lexicographic;
    forall x <- members ensures Lexicographic(x, id) <==> Before(x, id) {
      BeforeIff(x, id);
    }
  }

  lemma EarlierIs(counts: map<string, int>, p: Part)
    ensures EarlierParts(counts, p) == Under(Parts(counts), Earlier, p)
  {
    hide Before, Lexicographic, Parts;
    forall q <- Parts(counts)
      ensures Earlier(q, p) <==> Lexicographic(q.topic, p.topic) || (q.topic == p.topic && q.part < p.part)
    {
      BeforeIff(q.topic, p.topic);
      BeforeIsStrict(q.topic, q.topic);
    }
  }

  lemma MemberRank(ms: seq<string>, members: set<string>, id: string)
    requires StrictTotal(Before) && IsListing(ms, members, Before) && id in members
    ensures id in ms && IndexOf(ms, id) == |SmallerMembers(members, id)| && |ms| == |members|
  {
    hide Before, Lexicographic, SmallerMembers;
    assert id in ms;
    ListingRank(ms, members, Before, IndexOf(ms, id));
    ListingSize(ms, members, Before);
    SmallerIs(members, id);
  }

  lemma PartRank(ps: seq<Part>, counts: map<string, int>, i: nat)
    requires StrictTotal(Earlier) && Lists(ps, counts) && i < |ps|
    ensures |EarlierParts(counts, ps[i])| == i
  {
    hide Earlier, Parts, EarlierParts;
    ListingRank(ps, Parts(counts), Earlier, i);
    EarlierIs(counts, ps[i]);
  }

  lemma TurnsReach(n: nat, j: nat, m: nat, k: nat)
    requires m > 0 && j + k * m < n
    ensures k < Turns(n, j, m)
  {
    DivMonotone(k * m, n - j - 1, m);
    QuotientIs(k * m, k, 0, m);
  }

  // The partition at this position, in the order of topics and ids, has this id.
  ghost predicate InTurn(counts: map<string, int>, at: int, id: int) {
    exists p :: p in Parts(counts) && |EarlierParts(counts, p)| == at && p.part == id
  }

  // The share has, in order, the ids of exactly the partitions whose position is congruent to r modulo m.
  ghost predicate IsEveryMth(share: seq<int>, counts: map<string, int>, r: int, m: nat)
    requires m > 0
  {
    && (forall p <- Parts(counts) ::
          |EarlierParts(counts, p)| % m == r ==>
            |EarlierParts(counts, p)| / m < |share| && share[|EarlierParts(counts, p)| / m] == p.part)
    && (forall k :: 0 <= k < |share| ==> InTurn(counts, r + k * m, share[k]))
  }

  lemma QuotientOf(i: nat, m: nat)
    requires m > 0
    ensures i == i % m + i / m * m
  {
  }

  lemma ShareLength(ps: seq<Part>, r: nat, m: nat)
    requires r < m
    ensures |Share(ps, r, m)| == Turns(|ps|, r, m)
  {
    ShareIs(ps, r, m);
  }

  lemma ShareReaches(ps: seq<Part>, r: nat, m: nat, i: nat)
    requires r < m && i < |ps| && i % m == r
    ensures i / m < |Share(ps, r, m)| && Share(ps, r, m)[i / m] == ps[i].part
  {
    hide Share, Turns;
    var k := i / m;
    QuotientOf(i, m);
    TurnsReach(|ps|, r, m, k);
    ShareLength(ps, r, m);
    var at := ShareFrom(ps, r, m, k);
  }

  lemma ShareFrom(ps: seq<Part>, r: nat, m: nat, k: nat) returns (i: nat)
    requires r < m && k < |Share(ps, r, m)|
    ensures i == r + k * m && i < |ps| && Share(ps, r, m)[k] == ps[i].part
  {
    ShareIs(ps, r, m);
    i := r + k * m;
  }

  lemma ShareIsInTurn(ps: seq<Part>, counts: map<string, int>, r: nat, m: nat)
    requires StrictTotal(Earlier) && Lists(ps, counts) && r < m
    ensures IsEveryMth(Share(ps, r, m), counts, r, m)
  {
    hide Earlier, Share, Parts, EarlierParts;
    var share := Share(ps, r, m);
    forall p <- Parts(counts) | |EarlierParts(counts, p)| % m == r
      ensures |EarlierParts(counts, p)| / m < |share| && share[|EarlierParts(counts, p)| / m] == p.part
    {
      assert p in ps;
      var i :| 0 <= i < |ps| && ps[i] == p;
      PartRank(ps, counts, i);
      ShareReaches(ps, r, m, i);
    }
    forall k | 0 <= k < |share| ensures InTurn(counts, r + k * m, share[k]) {
      var i := ShareFrom(ps, r, m, k);
      PartRank(ps, counts, i);
      assert ps[i] in ps;
    }
  }

  /**
   Who gets what: of all partitions, in the order of their topics and then their ids, a member gets those whose position
   is congruent, modulo the number of members, to the number of members with smaller names; in that order, and no others.
   */
  lemma BalancedIs(members: set<string>, counts: map<string, int>, id: string)
    requires id in members
    ensures |members| > 0 && id in Balanced(members, counts)
    ensures IsEveryMth(Balanced(members, counts)[id], counts, |SmallerMembers(members, id)|, |members|)
  {
    hide Before, Earlier, Share, Parts, EarlierParts, SmallerMembers, IsEveryMth;
    BeforeIsTotal();
    EarlierIsTotal();
    var ms, ps := Listing(members, Before), Listing(Parts(counts), Earlier);
    MemberRank(ms, members, id);
    var (r, m) := (|SmallerMembers(members, id)|, |members|);
    assert Balanced(members, counts)[id] == Share(ps, r, m);
    ShareIsInTurn(ps, counts, r, m);
  }

  // Every member has its turns.
  ghost predicate SharedInTurn(shares: map<string, seq<int>>, counts: map<string, int>) {
    forall id <- shares :: IsEveryMth(shares[id], counts, |SmallerMembers(shares.Keys, id)|, |shares.Keys|)
  }

  lemma AllInTurn(members: set<string>, counts: map<string, int>)
    ensures Balanced(members, counts).Keys == members && SharedInTurn(Balanced(members, counts), counts)
  {
    hide Balanced, IsEveryMth, SmallerMembers;
    BalancedKeys(members, counts);
    forall id <- members {
      BalancedIs(members, counts, id);
    }
  }
}
