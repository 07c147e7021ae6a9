/** Sliding windows kept in ring buffers (internal/metrics/metrics.go). */
module Metrics {
  import opened Basics

  const LAT_BUF_SIZE := 10000
  const RATE_WIN_SIZE := 60

  // The slot of item k in a ring of n slots.
  function Slot(k: nat, n: nat): (s: nat)
    requires n > 0
    ensures s < n && (k < n ==> s == k)
  {
    k % n
  }

  lemma DistinctSlots(i: nat, k: nat, n: nat)
    requires n > 0 && k - n < i < k
    ensures Slot(i, n) != Slot(k, n)
  {
    assert i == i / n * n + i % n && k == k / n * n + k % n;
    if k / n > i / n {
      TimesMonotone(i / n, k / n, n);
    } else if k / n < i / n {
      TimesMonotone(k / n, i / n, n);
    }
  }

  lemma SameSlot(i: nat, n: nat)
    requires n > 0
    ensures Slot(i + n, n) == Slot(i, n)
  {
    assert i + n == (i / n + 1) * n + i % n;
    QuotientIs(i + n, i / n + 1, i % n, n);
  }

  // What a ring of n slots holds after the items were written to it in turn.
  function Ring(n: nat, items: seq<int>): (r: seq<int>)
    requires n > 0
    ensures |r| == n
  {
    if items == [] then seq(n, _ => 0)
    else
      var k := |items| - 1;
      Ring(n, items[..k])[Slot(k, n) := items[k]]
  }

  // The last n items, or all there are.
  function LastOf(n: nat, items: seq<int>): seq<int> {
    if |items| <= n then items else items[|items| - n..]
  }

  // Each of the last n items is in its slot; slots not yet written are zero.
  lemma {:induction false} RingHolds(n: nat, items: seq<int>, i: nat)
    requires n > 0
    ensures |items| - n <= i < |items| ==> Ring(n, items)[Slot(i, n)] == items[i]
    ensures |items| <= i < n ==> Ring(n, items)[i] == 0
  {
    hide Slot;
    if items != [] {
      var k := |items| - 1;
      RingHolds(n, items[..k], i);
      if k - n < i < k {
        DistinctSlots(i, k, n);
      }
    }
  }

  function Sum(s: seq<int>): int {
    if s == [] then 0 else Sum(s[..|s| - 1]) + s[|s| - 1]
  }

  lemma {:induction false} SumOfUpdate(s: seq<int>, i: nat, x: int)
    requires i < |s|
    ensures Sum(s[i := x]) == Sum(s) - s[i] + x
  {
    var n := |s| - 1;
    if i < n {
      SumOfUpdate(s[..n], i, x);
      assert s[i := x][..n] == s[..n][i := x];
    } else {
      assert s[i := x][..n] == s[..n];
    }
  }

  lemma {:induction false} SumOfZeros(n: nat)
    ensures Sum(seq(n, _ => 0)) == 0
  {
    if n > 0 {
      SumOfZeros(n - 1);
      assert seq(n, _ => 0)[..n - 1] == seq(n - 1, _ => 0);
    }
  }

  lemma {:induction false} SumDropsFirst(s: seq<int>)
    requires s != []
    ensures Sum(s[1..]) == Sum(s) - s[0]
  {
    var n := |s| - 1;
    if n > 0 {
      SumDropsFirst(s[..n]);
      assert s[1..][..n - 1] == s[..n][1..];
    } else {
      assert s[..0] == [] && s[1..] == [];
    }
  }

  /** The slots add up to the last n items, wherever the ring has got to. */
  lemma {:induction false} RingSum(n: nat, items: seq<int>)
    requires n > 0
    ensures Sum(Ring(n, items)) == Sum(LastOf(n, items))
  {
    if items == [] {
      SumOfZeros(n);
    } else {
      var k := |items| - 1;
      RingSum(n, items[..k]);
      SumOfUpdate(Ring(n, items[..k]), Slot(k, n), items[k]);
      RingSlot(n, items[..k]);
      LastOfStep(n, items);
    }
  }

  // What the next write replaces.
  lemma RingSlot(n: nat, items: seq<int>)
    requires n > 0
    ensures Ring(n, items)[Slot(|items|, n)] == if |items| < n then 0 else items[|items| - n]
  {
    hide Slot;
    var k := |items|;
    if k < n {
      RingHolds(n, items, k);
    } else {
      RingHolds(n, items, k - n);
      SameSlot(k - n, n);
    }
  }

  lemma LastOfStep(n: nat, items: seq<int>)
    requires n > 0 && items != []
    ensures var k := |items| - 1;
            Sum(LastOf(n, items)) == Sum(LastOf(n, items[..k])) + items[k] - if k < n then 0 else items[k - n]
  {
    var k := |items| - 1;
    if k >= n {
      var w := items[k - n..];
      assert LastOf(n, items[..k]) == w[..n] && LastOf(n, items) == w[1..];
      SumDropsFirst(w);
      assert w[..|w| - 1] == w[..n];
    }
  }

  // Messages gained at each tick, given the running totals at the ticks.
  function Gains(totals: seq<int>): (g: seq<int>)
    ensures |g| == |totals|
  {
    seq(|totals|, i requires 0 <= i < |totals| => totals[i] - TotalAt(totals, i))
  }

  // The total after the first i ticks.
  function TotalAt(totals: seq<int>, i: nat): int
    requires i <= |totals|
  {
    if i == 0 then 0 else totals[i - 1]
  }

  lemma {:induction false} GainsTelescope(totals: seq<int>, from: nat)
    requires from <= |totals|
    ensures Sum(Gains(totals)[from..]) == TotalAt(totals, |totals|) - TotalAt(totals, from)
  {
    if from < |totals| {
      var k := |totals| - 1;
      GainsTelescope(totals[..k], from);
      assert Gains(totals)[from..][..k - from] == Gains(totals[..k])[from..];
    } else {
      assert Gains(totals)[from..] == [];
    }
  }

  /** The rate window sums to the messages counted since the tick one window ago, or since the start. */
  lemma WindowIsDifference(n: nat, totals: seq<int>)
    requires n > 0
    ensures var k := |totals|;
            Sum(Ring(n, Gains(totals))) == TotalAt(totals, k) - TotalAt(totals, if k <= n then 0 else k - n)
  {
    RingSum(n, Gains(totals));
    var k := |totals|;
    GainsTelescope(totals, if k <= n then 0 else k - n);
    assert Gains(totals)[0..] == Gains(totals);
  }

  /** The part of the ring in use holds the last n items, each as often as it came. */
  lemma {:induction false} RingIsLast(n: nat, items: seq<int>)
    requires n > 0
    ensures var used := if |items| < n then |items| else n;
            multiset(Ring(n, items)[..used]) == multiset(LastOf(n, items))
  {
    hide Slot;
    if items != [] {
      var k := |items| - 1;
      RingIsLast(n, items[..k]);
      RingSlot(n, items[..k]);
      LastOfSwap(n, items, Ring(n, items[..k]), Slot(k, n));
    }
  }

  lemma LastOfGrows(n: nat, items: seq<int>)
    requires items != [] && |items| <= n
    ensures multiset(LastOf(n, items)) == multiset(LastOf(n, items[..|items| - 1])) + multiset{items[|items| - 1]}
  {
    assert items == items[..|items| - 1] + [items[|items| - 1]];
  }

  lemma LastOfSlides(n: nat, items: seq<int>)
    requires n > 0 && |items| > n
    ensures var k := |items| - 1;
            multiset(LastOf(n, items)) == multiset(LastOf(n, items[..k])) - multiset{items[k - n]} + multiset{items[k]}
  {
    var k := |items| - 1;
    var w := LastIsWindow(n, items);
    hide LastOf;
    SlideSwaps(w);
  }

  // The last n items before and after one more: the two ends of a stretch of n + 1.
  lemma LastIsWindow(n: nat, items: seq<int>) returns (w: seq<int>)
    requires n > 0 && |items| > n
    ensures |w| == n + 1 && w[0] == items[|items| - 1 - n] && w[|w| - 1] == items[|items| - 1]
    ensures LastOf(n, items[..|items| - 1]) == w[..|w| - 1] && LastOf(n, items) == w[1..]
  {
    w := items[|items| - 1 - n..];
  }

  // One more item takes the slot of the one it pushes out, if any.
  lemma LastOfSwap(n: nat, items: seq<int>, ring: seq<int>, slot: nat)
    requires n > 0 && items != [] && |ring| == n && slot < n
    requires var k := |items| - 1;
             && (if k < n then slot == k else ring[slot] == items[k - n])
             && multiset(ring[..if k < n then k else n]) == multiset(LastOf(n, items[..k]))
    ensures multiset(ring[slot := items[|items| - 1]][..if |items| < n then |items| else n]) == multiset(LastOf(n, items))
  {
    hide LastOf;
    var k := |items| - 1;
    if k < n {
      LastOfGrows(n, items);
      GrowPrefix(ring, k, items[k]);
    } else {
      LastOfSlides(n, items);
      UpdateSwaps(ring, slot, items[k]);
    }
  }

  lemma GrowPrefix(ring: seq<int>, k: nat, x: int)
    requires k < |ring|
    ensures multiset(ring[k := x][..k + 1]) == multiset(ring[..k]) + multiset{x}
  {
    assert ring[k := x][..k + 1] == ring[..k] + [x];
  }

  lemma UpdateSwaps(ring: seq<int>, slot: nat, x: int)
    requires slot < |ring|
    ensures multiset(ring[slot := x][..|ring|]) == multiset(ring[..|ring|]) - multiset{ring[slot]} + multiset{x}
  {
    var ring' := ring[slot := x];
    assert ring[..|ring|] == ring && ring'[..|ring|] == ring';
  }

  lemma SlideSwaps(w: seq<int>)
    requires |w| > 1
    ensures multiset(w[1..]) == multiset(w[..|w| - 1]) - multiset{w[0]} + multiset{w[|w| - 1]}
  {
    var mid := w[1..|w| - 1];
    assert w[1..] == mid + [w[|w| - 1]] && w[..|w| - 1] == [w[0]] + mid;
  }

  predicate Ascending(s: seq<int>) {
    forall i, j :: 0 <= i < j < |s| ==> s[i] <= s[j]
  }

  // x has been moved from its place down to its rank p in the ascending part before it.
  predicate InsertedAt(s: seq<int>, before: seq<int>, i: nat, p: nat) {
    p <= i < |before| && s == before[..p] + [before[i]] + before[p..i] + before[i + 1..]
  }

  lemma InsertedKeepsAll(s: seq<int>, before: seq<int>, i: nat, p: nat)
    requires InsertedAt(s, before, i, p)
    ensures |s| == |before| && multiset(s) == multiset(before)
  {
    assert before == before[..p] + before[p..i] + [before[i]] + before[i + 1..];
  }

  lemma InsertedIsAscending(s: seq<int>, before: seq<int>, i: nat, p: nat)
    requires InsertedAt(s, before, i, p) && Ascending(before[..i])
    requires (p > 0 ==> before[p - 1] <= before[i]) && (p < i ==> before[i] < before[p])
    ensures Ascending(s[..i + 1])
  {
    var a, b, x := before[..p], before[p..i], before[i];
    assert s[..i + 1] == a + [x] + b;
    forall k | 0 <= k < |a| ensures a[k] <= x {
      assert before[..i][k] <= before[..i][p - 1];
    }
    forall k | 0 <= k < |b| ensures x < b[k] {
      assert before[..i][p] <= before[..i][p + k];
    }
    forall j, k | 0 <= j < |a| && 0 <= k < |b| ensures a[j] <= b[k] {
      assert before[..i][j] <= before[..i][p + k];
    }
  }

  // The inner loop of the insertion sort.
  method insert(a: array<int>, i: nat) returns (ghost p: nat)
    requires 0 < i < a.Length
    modifies a
    ensures InsertedAt(a[..], old(a[..]), i, p)
    ensures (p > 0 ==> old(a[p - 1]) <= old(a[i])) && (p < i ==> old(a[i]) < old(a[p]))
  {
    ghost var before := a[..];
    var x := a[i];
    var j := i - 1;
    while j >= 0 && a[j] > x
      invariant -1 <= j < i
      invariant forall k :: 0 <= k <= j ==> a[k] == before[k]
      invariant forall k :: j + 1 < k <= i ==> a[k] == before[k - 1]
      invariant forall k :: i < k < a.Length ==> a[k] == before[k]
      invariant j + 1 < i ==> before[j + 1] > x
    {
      a[j + 1] := a[j];
      j := j - 1;
    }
    a[j + 1] := x;
    p := j + 1;
    assert a[..] == before[..p] + [before[i]] + before[p..i] + before[i + 1..];
  }

  // One turn of the outer loop.
  method insertNext(a: array<int>, i: nat)
    requires 0 < i < a.Length && Ascending(a[..i])
    modifies a
    ensures Ascending(a[..i + 1]) && multiset(a[..]) == multiset(old(a[..]))
  {
    ghost var before := a[..];
    assert a[..i] == before[..i];
    ghost var p := insert(a, i);
    InsertedKeepsAll(a[..], before, i, p);
    InsertedIsAscending(a[..], before, i, p);
    assert a[..i + 1] == a[..][..i + 1];
  }

  /** The insertion sort leaves the same values, in ascending order. */
  method sortInt64(a: array<int>)
    modifies a
    ensures Ascending(a[..]) && multiset(a[..]) == multiset(old(a[..]))
  {
    hide Ascending;
    AscendingFirst(a[..]);
    var i := 1;
    while i < a.Length
      invariant 1 <= i && (i <= a.Length || a.Length == 0)
      invariant Ascending(a[..if i <= a.Length then i else 0]) && multiset(a[..]) == multiset(old(a[..]))
    {
      insertNext(a, i);
      i := i + 1;
    }
    assert a[..a.Length] == a[..];
  }

  lemma AscendingFirst(s: seq<int>)
    ensures Ascending(s[..if 1 <= |s| then 1 else 0])
  {
  }

  // The remainder is smaller than the divisor, and has the sign of the dividend if any.
  predicate IsQuotient(q: int, a: int, b: int) {
    var r := a - q * b;
    -b < r < b && (r > 0 ==> a > 0) && (r < 0 ==> a < 0)
  }

  // Division as Go does it, towards zero.
  function TruncDiv(a: int, b: int): (q: int)
    requires b > 0
    ensures IsQuotient(q, a, b)
  {
    if a >= 0 then a / b else -(-a / b)
  }

  lemma QuotientIsUnique(p: int, q: int, a: int, b: int)
    requires b > 0 && IsQuotient(p, a, b) && IsQuotient(q, a, b)
    ensures p == q
  {
    if p < q {
      TimesMonotone(p, q, b);
    } else if q < p {
      TimesMonotone(q, p, b);
    }
  }

  // How many of the values are at most p.
  function AtMost(s: seq<int>, p: int): (n: nat)
    ensures n <= |s|
  {
    if s == [] then 0 else AtMost(s[..|s| - 1], p) + if s[|s| - 1] <= p then 1 else 0
  }

  lemma {:induction false} AtMostConcat(a: seq<int>, b: seq<int>, p: int)
    ensures AtMost(a + b, p) == AtMost(a, p) + AtMost(b, p)
  {
    if b == [] {
      assert a + b == a;
    } else {
      assert (a + b)[..|a + b| - 1] == a + b[..|b| - 1];
      AtMostConcat(a, b[..|b| - 1], p);
    }
  }

  lemma WithoutOne(a: seq<int>, x: int, b: seq<int>, i: nat)
    requires i < |b| && b[i] == x && multiset(a + [x]) == multiset(b)
    ensures multiset(a) == multiset(b[..i] + b[i + 1..])
  {
    assert b == b[..i] + [x] + b[i + 1..];
    assert multiset(a + [x]) - multiset{x} == multiset(a);
  }

  lemma AtMostWithout(b: seq<int>, i: nat, p: int)
    requires i < |b|
    ensures AtMost(b, p) == AtMost(b[..i] + b[i + 1..], p) + if b[i] <= p then 1 else 0
  {
    var c, d := b[..i + 1], b[i + 1..];
    assert b == c + d && c[..i] == b[..i];
    AtMostConcat(c, d, p);
    AtMostConcat(b[..i], d, p);
  }

  lemma {:induction false} AtMostPermuted(a: seq<int>, b: seq<int>, p: int)
    requires multiset(a) == multiset(b)
    ensures AtMost(a, p) == AtMost(b, p) && |a| == |b|
  {
    assert |multiset(a)| == |multiset(b)|;
    if a != [] {
      var n, x := |a| - 1, a[|a| - 1];
      assert a == a[..n] + [x];
      assert x in multiset(b);
      var i :| 0 <= i < |b| && b[i] == x;
      WithoutOne(a[..n], x, b, i);
      AtMostPermuted(a[..n], b[..i] + b[i + 1..], p);
      AtMostWithout(b, i, p);
    }
  }

  lemma {:induction false} AllAtMost(s: seq<int>, p: int)
    requires forall i :: 0 <= i < |s| ==> s[i] <= p
    ensures AtMost(s, p) == |s|
  {
    if s != [] {
      AllAtMost(s[..|s| - 1], p);
    }
  }

  lemma {:induction false} NoneAtMost(s: seq<int>, p: int)
    requires forall i :: 0 <= i < |s| ==> s[i] > p
    ensures AtMost(s, p) == 0
  {
    if s != [] {
      NoneAtMost(s[..|s| - 1], p);
    }
  }

  lemma RankAbove(s: seq<int>, k: nat)
    requires Ascending(s) && k < |s|
    ensures AtMost(s, s[k]) > k
  {
    hide AtMost;
    var a, b := s[..k + 1], s[k + 1..];
    assert s == a + b;
    AtMostConcat(a, b, s[k]);
    AllAtMost(a, s[k]);
  }

  lemma RankBelow(s: seq<int>, k: nat)
    requires Ascending(s) && k < |s|
    ensures AtMost(s, s[k] - 1) <= k
  {
    hide AtMost;
    var a, b := s[..k], s[k..];
    assert s == a + b;
    AtMostConcat(a, b, s[k] - 1);
    NoneAtMost(b, s[k] - 1);
  }

  // More than 99 in a hundred of the samples are at most p, and no more than 99 in a hundred are less.
  predicate IsPercentile(p: int, samples: seq<int>) {
    100 * AtMost(samples, p - 1) <= 99 * |samples| < 100 * AtMost(samples, p)
  }

  lemma {:induction false} AtMostGrows(s: seq<int>, p: int, q: int)
    requires p <= q
    ensures AtMost(s, p) <= AtMost(s, q)
  {
    if s != [] {
      AtMostGrows(s[..|s| - 1], p, q);
    }
  }

  /** Samples have at most one 99th percentile. */
  lemma PercentileIsUnique(p: int, q: int, samples: seq<int>)
    requires IsPercentile(p, samples) && IsPercentile(q, samples)
    ensures p == q
  {
    if p < q {
      AtMostGrows(samples, p, q - 1);
    } else if q < p {
      AtMostGrows(samples, q, p - 1);
    }
  }

  class Collector {
    var messagesIn: int
    var bytesIn: int
    const latencies: array<int>
    var latIdx: nat
    const rateWin: array<int>
    var wIdx: nat
    var lastMsgIn: int
    var msgPerSec: real
    // Every latency recorded, and the message count at every tick.
    ghost var samples: seq<int>
    ghost var totals: seq<int>

    ghost predicate Valid()
      reads this, latencies, rateWin
    {
      && latencies != rateWin && latencies.Length == LAT_BUF_SIZE && rateWin.Length == RATE_WIN_SIZE
      && messagesIn == latIdx == |samples| && wIdx == |totals|
      && latencies[..] == Ring(LAT_BUF_SIZE, samples)
      && rateWin[..] == Ring(RATE_WIN_SIZE, Gains(totals))
      && lastMsgIn == TotalAt(totals, |totals|)
    }

    constructor ()
      ensures Valid() && samples == [] && totals == []
    {
      messagesIn, bytesIn, latIdx, wIdx, lastMsgIn, msgPerSec := 0, 0, 0, 0, 0, 0.0;
      latencies := new int[LAT_BUF_SIZE](_ => 0);
      rateWin := new int[RATE_WIN_SIZE](_ => 0);
      samples, totals := [], [];
    }

    /** Recording keeps the ring in step with all samples so far. */
    method RecordPublish(bytes: int, latencyNs: int)
      requires Valid()
      modifies this, latencies
      ensures Valid() && samples == old(samples) + [latencyNs] && totals == old(totals)
      ensures messagesIn == old(messagesIn) + 1 && bytesIn == old(bytesIn) + bytes
    {
      messagesIn := messagesIn + 1;
      bytesIn := bytesIn + bytes;
      assert (samples + [latencyNs])[..|samples|] == samples;
      latencies[latIdx % LAT_BUF_SIZE] := latencyNs;
      latIdx := latIdx + 1;
      samples := samples + [latencyNs];
    }

    /** After a tick the rate is that of the messages since the tick one window ago. */
    method tick()
      requires Valid()
      modifies this, rateWin
      ensures Valid() && samples == old(samples) && totals == old(totals) + [messagesIn] && messagesIn == old(messagesIn)
      ensures var k := |totals|;
              msgPerSec == (messagesIn - TotalAt(totals, if k <= RATE_WIN_SIZE then 0 else k - RATE_WIN_SIZE)) as real / 60.0
    {
      var current := messagesIn;
      GainsGrow(totals, current);
      rateWin[wIdx % RATE_WIN_SIZE] := current - lastMsgIn;
      lastMsgIn := current;
      wIdx := wIdx + 1;
      totals := totals + [current];
      WindowIsDifference(RATE_WIN_SIZE, totals);
      var sum := sumOf(rateWin);
      msgPerSec := sum as real / 60.0;
    }

    static method sumOf(a: array<int>) returns (sum: int)
      ensures sum == Sum(a[..])
    {
      sum := 0;
      for i := 0 to a.Length
        invariant sum == Sum(a[..i])
      {
        assert a[..i + 1][..i] == a[..i];
        sum := sum + a[i];
      }
      assert a[..a.Length] == a[..];
    }

    /** The average and the 99th percentile are those of the last samples, as many as the buffer holds. */
    method computeLatencies() returns (avg: int, p99: int)
      requires Valid()
      ensures samples == [] ==> avg == 0 && p99 == 0
      ensures var recent := LastOf(LAT_BUF_SIZE, samples);
              samples != [] ==> IsQuotient(avg, Sum(recent), |recent|) && IsPercentile(p99, recent)
    {
      hide TruncDiv, IsQuotient, LastOf, Ring, Sum, AtMost;
      var size := latIdx;
      if size == 0 {
        return 0, 0;
      }
      if size > LAT_BUF_SIZE {
        size := LAT_BUF_SIZE;
      }
      var vals := copyOf(latencies, size);
      ghost var recent := LastOf(LAT_BUF_SIZE, samples);
      UsedPart(LAT_BUF_SIZE, samples);
      ghost var vals0 := vals[..];
      var sum := sumOf(vals);
      assert sum == Sum(recent) && size == |recent|;
      avg := TruncDiv(sum, size);
      p99 := percentile(vals);
      AtMostPermuted(vals0, recent, p99);
      AtMostPermuted(vals0, recent, p99 - 1);
    }

    static method copyOf(a: array<int>, n: nat) returns (vals: array<int>)
      requires n <= a.Length
      ensures fresh(vals) && vals[..] == a[..][..n]
    {
      vals := new int[n];
      forall i | 0 <= i < n {
        vals[i] := a[i];
      }
    }

    // Sorts its argument to find the value 99 hundredths of the way up.
    static method percentile(vals: array<int>) returns (p99: int)
      requires vals.Length > 0
      modifies vals
      ensures IsPercentile(p99, old(vals[..]))
    {
      sortInt64(vals);
      var size := vals.Length;
      var p99Idx := (size as real * 0.99).Floor;
      if p99Idx >= size {
        p99Idx := size - 1;
      }
      p99 := vals[p99Idx];
      RankAbove(vals[..], p99Idx);
      RankBelow(vals[..], p99Idx);
      AtMostPermuted(vals[..], old(vals[..]), p99);
      AtMostPermuted(vals[..], old(vals[..]), p99 - 1);
    }
  }

  lemma GainsGrow(totals: seq<int>, current: int)
    ensures Gains(totals + [current]) == Gains(totals) + [current - TotalAt(totals, |totals|)]
    ensures Gains(totals + [current])[..|totals|] == Gains(totals)
  {
    var t := totals + [current];
    forall i | 0 <= i < |totals| ensures Gains(t)[i] == Gains(totals)[i] {
      assert t[i] == totals[i];
    }
  }

  // The part of the ring in use: the same samples, with the same sum.
  lemma UsedPart(n: nat, items: seq<int>)
    requires n > 0
    ensures var used := if |items| < n then |items| else n;
            && |LastOf(n, items)| == used
            && multiset(Ring(n, items)[..used]) == multiset(LastOf(n, items))
            && Sum(Ring(n, items)[..used]) == Sum(LastOf(n, items))
  {
    RingIsLast(n, items);
    if |items| < n {
      forall i: nat | i < |items| ensures Ring(n, items)[i] == items[i] {
        RingHolds(n, items, i);
      }
      assert Ring(n, items)[..|items|] == items;
    } else {
      RingSum(n, items);
      assert Ring(n, items)[..n] == Ring(n, items);
    }
  }
}
