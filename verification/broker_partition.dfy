/** A partition: batched appends, flushing into rolling segments, and fetching (internal/broker/partition.go). */
module Partitions {
  import opened Basics
  import opened RecordCodec
  import opened Segments

  // A segment as a value: its base offset and the records it holds.
  datatype Part = Part(base: int, contents: seq<Record>)

  datatype Log = Log(parts: seq<Part>, batch: seq<Record>, nextOffset: int, hwm: int)

  const FRESH := Log([Part(0, [])], [], 0, 0)

  // Offsets count up from `start`, and every record fits its encoding.
  ghost predicate Numbered(ms: seq<Record>, start: int) {
    forall i :: 0 <= i < |ms| ==> ms[i].offset == start + i && Fits(ms[i])
  }

  // The segments cut ms into consecutive pieces; a segment's base is the offset of its first record,
  // and only the last segment can be empty.
  ghost predicate Laid(parts: seq<Part>, start: int, ms: seq<Record>) {
    if parts == [] then ms == []
    else
      var c := parts[0].contents;
      && parts[0].base == start && c <= ms && (|parts| > 1 ==> c != [])
      && Laid(parts[1..], start + |c|, ms[|c|..])
  }

  // The state after appending the records `all`: a prefix is stored, the rest waits in the batch.
  ghost predicate Sound(p: Log, all: seq<Record>) {
    && Numbered(all, 0)
    && p.nextOffset == |all| && 0 <= p.hwm <= |all|
    && p.batch == all[p.hwm..]
    && p.parts != [] && Laid(p.parts, 0, all[..p.hwm])
  }

  // Appending (one step): the record is numbered and queued.
  function Queued(p: Log, m: Record): Log {
    p.(batch := p.batch + [m], nextOffset := p.nextOffset + 1)
  }

  // The active segment takes the record.
  function Put(parts: seq<Part>, m: Record): (r: seq<Part>)
    requires parts != []
    ensures r != []
  {
    var last := parts[|parts| - 1];
    parts[..|parts| - 1] + [Part(last.base, last.contents + [m])]
  }

  // A full active segment is followed by a new one.
  function Rolled(parts: seq<Part>, offset: int, maxSize: int): (r: seq<Part>)
    requires parts != []
    ensures r != []
  {
    if TotalSize(parts[|parts| - 1].contents) >= maxSize then parts + [Part(offset, [])] else parts
  }

  // One turn of the flush loop.
  function Stored(parts: seq<Part>, m: Record, maxSize: int): (r: seq<Part>)
    requires parts != []
    ensures r != []
  {
    Put(Rolled(parts, m.offset, maxSize), m)
  }

  function AllStored(parts: seq<Part>, ms: seq<Record>, maxSize: int): (r: seq<Part>)
    requires parts != []
    ensures r != []
    decreases |ms|
  {
    if ms == [] then parts else AllStored(Stored(parts, ms[0], maxSize), ms[1..], maxSize)
  }

  function Flushed(p: Log, maxSize: int): Log
    requires p.parts != []
  {
    if p.batch == [] then p
    else Log(AllStored(p.parts, p.batch, maxSize), [], p.nextOffset, p.batch[|p.batch| - 1].offset + 1)
  }

  // The fetch loop over the segments.
  function Gathered(parts: seq<Part>, from: int, budget: int): seq<Record> {
    if parts == [] || parts[0].base > from then []
    else
      var got := Window(parts[0].contents, from, budget);
      if TotalSize(got) >= budget then got else got + Gathered(parts[1..], from, budget - TotalSize(got))
  }

  // What a fetch returns, once the batch has been flushed.
  function Fetched(p: Log, from: int, budget: int): seq<Record> {
    if from >= p.hwm then [] else Gathered(p.parts, from, budget)
  }

  // Laid, seen from the active segment.
  lemma {:induction false} StoredIsLaid(parts: seq<Part>, start: int, ms: seq<Record>, m: Record, maxSize: int)
    requires parts != [] && Laid(parts, start, ms) && maxSize > 0 && m.offset == start + |ms|
    ensures Laid(Stored(parts, m, maxSize), start, ms + [m])
  {
    var r, c := Stored(parts, m, maxSize), parts[0].contents;
    if |parts| > 1 {
      StoredIsLaid(parts[1..], start + |c|, ms[|c|..], m, maxSize);
      assert r[0] == parts[0] && r[1..] == Stored(parts[1..], m, maxSize);
      assert (ms + [m])[|c|..] == ms[|c|..] + [m];
    } else {
      assert c == ms;
      LaidOne(start, ms, m);
      assert [] + [m] == [m] && parts == [Part(start, c)];
      assert r == if TotalSize(c) >= maxSize then [parts[0], Part(m.offset, [m])] else [Part(start, c + [m])];
    }
  }

  lemma LaidOne(start: int, ms: seq<Record>, m: Record)
    requires m.offset == start + |ms|
    ensures Laid([Part(start, ms + [m])], start, ms + [m])
    ensures ms != [] ==> Laid([Part(start, ms), Part(m.offset, [m])], start, ms + [m])
  {
    var one := [Part(start, ms + [m])];
    assert one[1..] == [] && (ms + [m])[|ms + [m]|..] == [];
    var next := [Part(m.offset, [m])];
    assert next[1..] == [] && [m][1..] == [];
    assert Laid(next, m.offset, [m]);
    var two := [Part(start, ms), Part(m.offset, [m])];
    assert two[1..] == next && (ms + [m])[|ms|..] == [m];
  }

  lemma {:induction false} AllStoredIsLaid(parts: seq<Part>, stored: seq<Record>, ms: seq<Record>, maxSize: int)
    requires parts != [] && Laid(parts, 0, stored) && maxSize > 0 && Numbered(stored + ms, 0)
    ensures Laid(AllStored(parts, ms, maxSize), 0, stored + ms)
    decreases |ms|
  {
    if ms == [] {
      assert stored + ms == stored;
    } else {
      assert (stored + ms)[|stored|] == ms[0];
      StoredIsLaid(parts, 0, stored, ms[0], maxSize);
      assert stored + [ms[0]] + ms[1..] == stored + ms;
      AllStoredIsLaid(Stored(parts, ms[0], maxSize), stored + [ms[0]], ms[1..], maxSize);
    }
  }

  // A segment is the shortest run of records that reaches the maximum size, or the last one, which may not have reached
  // it yet; and no segment but the first is ever left empty.
  ghost predicate Filled(parts: seq<Part>, maxSize: int) {
    && (forall i :: 0 <= i < |parts| - 1 ==> TotalSize(parts[i].contents) >= maxSize)
    && (forall i :: 0 <= i < |parts| && parts[i].contents != [] ==> TotalSize(Front(parts[i].contents)) < maxSize)
    && (|parts| > 1 ==> parts[|parts| - 1].contents != [])
  }

  function Front(ms: seq<Record>): seq<Record>
    requires ms != []
  {
    ms[..|ms| - 1]
  }

  lemma StoredIsFilled(parts: seq<Part>, m: Record, maxSize: int)
    requires parts != [] && Filled(parts, maxSize) && maxSize > 0
    ensures Filled(Stored(parts, m, maxSize), maxSize)
  {
    hide TotalSize;
    assert TotalSize([]) == 0 by { NothingHasNoSize(); }
    var last := parts[|parts| - 1];
    assert Front(last.contents + [m]) == last.contents && Front([] + [m]) == [];
  }

  lemma NothingHasNoSize()
    ensures TotalSize([]) == 0
  {
  }

  lemma {:induction false} AllStoredIsFilled(parts: seq<Part>, ms: seq<Record>, maxSize: int)
    requires parts != [] && Filled(parts, maxSize) && maxSize > 0
    ensures Filled(AllStored(parts, ms, maxSize), maxSize)
    decreases |ms|
  {
    hide Filled, Stored;
    if ms != [] {
      StoredIsFilled(parts, ms[0], maxSize);
      AllStoredIsFilled(Stored(parts, ms[0], maxSize), ms[1..], maxSize);
    }
  }

  /** Flushing rolls a segment exactly when it has reached the maximum size. */
  lemma FlushedIsFilled(p: Log, maxSize: int)
    requires p.parts != [] && Filled(p.parts, maxSize) && maxSize > 0
    ensures Filled(Flushed(p, maxSize).parts, maxSize)
  {
    AllStoredIsFilled(p.parts, p.batch, maxSize);
  }

  lemma {:induction false} TotalSizeGrows(a: seq<Record>, b: seq<Record>)
    requires a <= b
    ensures TotalSize(a) <= TotalSize(b)
  {
    if a != [] {
      assert a[1..] <= b[1..];
      TotalSizeGrows(a[1..], b[1..]);
    }
  }

  lemma FirstPartShorter(a: seq<Part>, b: seq<Part>, start: int, ms: seq<Record>, maxSize: int)
    requires a != [] && b != [] && Laid(a, start, ms) && Laid(b, start, ms) && Filled(a, maxSize) && Filled(b, maxSize)
    ensures |a[0].contents| <= |b[0].contents|
  {
    var x, y := a[0].contents, b[0].contents;
    if |x| > |y| {
      LaidAlone(b, start, ms);
      assert y <= Front(x);
      TotalSizeGrows(y, Front(x));
    }
  }

  // A list of one segment holds everything.
  lemma LaidAlone(parts: seq<Part>, start: int, ms: seq<Record>)
    requires parts != [] && Laid(parts, start, ms)
    ensures |parts| == 1 ==> parts[0].contents == ms
    ensures parts[0].contents == ms && |parts| > 1 ==> parts[1].contents == []
  {
    if |parts| == 1 {
      assert parts[1..] == [];
    }
  }

  lemma FilledTail(parts: seq<Part>, maxSize: int)
    requires |parts| > 1 && Filled(parts, maxSize)
    ensures Filled(parts[1..], maxSize)
  {
    hide TotalSize, Front;
  }

  /** So the records and the maximum size alone decide where one segment ends and the next begins. */
  lemma {:induction false} CutIsUnique(a: seq<Part>, b: seq<Part>, start: int, ms: seq<Record>, maxSize: int)
    requires a != [] && b != [] && Laid(a, start, ms) && Laid(b, start, ms) && Filled(a, maxSize) && Filled(b, maxSize)
    ensures a == b
  {
    hide Filled;
    FirstPartShorter(a, b, start, ms, maxSize);
    FirstPartShorter(b, a, start, ms, maxSize);
    var c := a[0].contents;
    assert c == ms[..|c|] == b[0].contents && a[0] == b[0];
    LastNotEmpty(a, start, ms, maxSize);
    LastNotEmpty(b, start, ms, maxSize);
    if |a| > 1 && |b| > 1 {
      FilledTail(a, maxSize);
      FilledTail(b, maxSize);
      CutIsUnique(a[1..], b[1..], start + |c|, ms[|c|..], maxSize);
      assert a == [a[0]] + a[1..] && b == [b[0]] + b[1..];
    }
  }

  lemma LastNotEmpty(parts: seq<Part>, start: int, ms: seq<Record>, maxSize: int)
    requires parts != [] && Laid(parts, start, ms) && Filled(parts, maxSize)
    ensures |parts| > 1 <==> parts[0].contents != ms
  {
    LaidAlone(parts, start, ms);
    if |parts| > 1 {
      assert parts[1..] != [] && Laid(parts[1..], start + |parts[0].contents|, ms[|parts[0].contents|..]);
    }
  }

  lemma FreshIsFilled(maxSize: int)
    ensures Filled(FRESH.parts, maxSize)
  {
  }

  lemma FreshIsSound()
    ensures Sound(FRESH, [])
  {
    assert FRESH.parts[1..] == [];
  }

  /** Appending keeps the state sound, with one more record. */
  lemma QueuedIsSound(p: Log, all: seq<Record>, m: Record)
    requires Sound(p, all) && Fits(m) && m.offset == p.nextOffset
    ensures Sound(Queued(p, m), all + [m])
  {
    assert (all + [m])[..p.hwm] == all[..p.hwm];
    assert (all + [m])[p.hwm..] == all[p.hwm..] + [m];
  }

  /** Flushing keeps the state sound with the same records, and leaves every one of them stored. */
  lemma FlushedIsSound(p: Log, all: seq<Record>, maxSize: int)
    requires Sound(p, all) && maxSize > 0
    ensures Sound(Flushed(p, maxSize), all) && Flushed(p, maxSize).hwm == |all|
  {
    if p.batch != [] {
      assert all[..p.hwm] + p.batch == all;
      AllStoredIsLaid(p.parts, all[..p.hwm], p.batch, maxSize);
      assert all[..|all|] == all && all[|all|..] == [];
      assert p.batch[|p.batch| - 1] == all[|all| - 1];
    }
  }

  /** Segment bases strictly increase, so no two segments share a file name. */
  lemma {:induction false} BasesIncrease(parts: seq<Part>, start: int, ms: seq<Record>, i: int, j: int)
    requires Laid(parts, start, ms) && 0 <= i < j < |parts|
    ensures start <= parts[i].base < parts[j].base
  {
    var c := parts[0].contents;
    if i > 0 {
      BasesIncrease(parts[1..], start + |c|, ms[|c|..], i - 1, j - 1);
    } else if j > 1 {
      BasesIncrease(parts[1..], start + |c|, ms[|c|..], 0, j - 1);
    }
  }

  // The segment that holds offset `from`.
  ghost predicate Holds(p: Part, from: int) {
    p.base <= from < p.base + |p.contents|
  }

  lemma WindowInside(c: seq<Record>, start: int, from: int, budget: int)
    requires Numbered(c, start) && start <= from
    ensures from < start + |c| ==> Window(c, from, budget) == TakeBudget(c[from - start..], budget)
    ensures from >= start + |c| ==> Window(c, from, budget) == []
  {
    var k := FirstFrom(c, from);
    if from < start + |c| {
      assert c[from - start].offset == from;
    }
  }

  // The segment is the piece of ms that its base says, when ms starts at offset start.
  ghost predicate IsPiece(part: Part, start: int, ms: seq<Record>) {
    var at := part.base - start;
    0 <= at && at + |part.contents| <= |ms| && part.contents == ms[at..at + |part.contents|]
  }

  lemma FirstIsPiece(part: Part, start: int, ms: seq<Record>)
    requires part.base == start && part.contents <= ms
    ensures IsPiece(part, start, ms)
  {
  }

  lemma PieceOfRest(part: Part, start: int, ms: seq<Record>, n: nat)
    requires n <= |ms| && IsPiece(part, start + n, ms[n..])
    ensures IsPiece(part, start, ms)
  {
    SliceOfRest(ms, n, part.base - start - n, |part.contents|);
  }

  /** A segment holds exactly the stored records from its base on. */
  lemma {:induction false} PartHolds(parts: seq<Part>, start: int, ms: seq<Record>, k: nat)
    requires Laid(parts, start, ms) && k < |parts|
    ensures IsPiece(parts[k], start, ms)
  {
    if k == 0 {
      FirstIsPiece(parts[0], start, ms);
    } else {
      hide IsPiece;
      var n := |parts[0].contents|;
      PartHolds(parts[1..], start + n, ms[n..], k - 1);
      PieceOfRest(parts[k], start, ms, n);
    }
  }

  lemma LaidTail(parts: seq<Part>, start: int, ms: seq<Record>)
    requires parts != [] && Laid(parts, start, ms) && Numbered(ms, start)
    ensures var c := parts[0].contents;
            && |c| <= |ms| && Laid(parts[1..], start + |c|, ms[|c|..]) && Numbered(ms[|c|..], start + |c|)
            && (|c| < |ms| ==> |parts| > 1)
  {
  }

  lemma GatheredOnce(parts: seq<Part>, from: int, budget: int)
    requires parts != [] && parts[0].base <= from
    ensures var got := Window(parts[0].contents, from, budget);
            Gathered(parts, from, budget)
            == if TotalSize(got) >= budget then got else got + Gathered(parts[1..], from, budget - TotalSize(got))
  {
    hide Window, TotalSize;
  }

  lemma GatheredPast(parts: seq<Part>, from: int, budget: int)
    requires parts != [] && parts[0].base <= from && Window(parts[0].contents, from, budget) == [] && budget > 0
    ensures Gathered(parts, from, budget) == Gathered(parts[1..], from, budget)
  {
    hide Window, TakeBudget, FirstFrom;
    GatheredOnce(parts, from, budget);
    assert TotalSize([]) == 0;
    assert [] + Gathered(parts[1..], from, budget) == Gathered(parts[1..], from, budget);
  }

  lemma GatheredHere(parts: seq<Part>, start: int, ms: seq<Record>, from: int, budget: int)
    requires parts != [] && Laid(parts, start, ms) && Numbered(ms, start)
    requires start <= from < start + |parts[0].contents|
    ensures Gathered(parts, from, budget) == TakeBudget(parts[0].contents[from - start..], budget)
  {
    var got := Window(parts[0].contents, from, budget);
    WindowInside(parts[0].contents, start, from, budget);
    assert |parts| > 1 ==> parts[1..][0].base == start + |parts[0].contents|;
    assert Gathered(parts[1..], from, budget - TotalSize(got)) == [];
    assert got + [] == got;
  }

  lemma GatheredLater(parts: seq<Part>, start: int, ms: seq<Record>, from: int, budget: int)
    requires parts != [] && Laid(parts, start, ms) && Numbered(ms, start)
    requires start + |parts[0].contents| <= from && budget > 0
    ensures Gathered(parts, from, budget) == Gathered(parts[1..], from, budget)
  {
    WindowInside(parts[0].contents, start, from, budget);
    GatheredPast(parts, from, budget);
  }

  /** The exact fetch window: the shortest run from `from` on, within the one segment that holds it, that reaches
      the budget; or the rest of that segment. */
  lemma {:induction false} FetchWindow(parts: seq<Part>, start: int, ms: seq<Record>, from: int, budget: int)
      returns (k: nat, part: Part)
    requires Laid(parts, start, ms) && Numbered(ms, start) && start <= from < start + |ms| && budget > 0
    ensures k < |parts| && part == parts[k] && Holds(part, from)
    ensures Gathered(parts, from, budget) == TakeBudget(part.contents[from - part.base..], budget)
  {
    var c := parts[0].contents;
    if from < start + |c| {
      k, part := 0, parts[0];
      GatheredHere(parts, start, ms, from, budget);
    } else {
      GatheredLater(parts, start, ms, from, budget);
      LaidTail(parts, start, ms);
      k, part := FetchWindow(parts[1..], start + |c|, ms[|c|..], from, budget);
      k := k + 1;
    }
  }

  // A record may follow what the active segment holds.
  ghost predicate Follows(parts: seq<Part>, m: Record) {
    parts != [] && (var c := parts[|parts| - 1].contents; c != [] ==> c[|c| - 1].offset < m.offset)
  }

  // What the flush loop starts with.
  lemma BatchFollows(p: Log, all: seq<Record>)
    requires Sound(p, all)
    ensures Numbered(p.batch, p.hwm)
    ensures p.batch != [] ==> Follows(p.parts, p.batch[0])
  {
    PartHolds(p.parts, 0, all[..p.hwm], |p.parts| - 1);
  }

  // The flush loop, with i records done: storing the rest gives what storing them all gives.
  ghost predicate Halfway(now: seq<Part>, parts: seq<Part>, msgs: seq<Record>, i: int, maxSize: int) {
    && now != [] && parts != [] && 0 <= i <= |msgs|
    && AllStored(now, msgs[i..], maxSize) == AllStored(parts, msgs, maxSize)
    && (i < |msgs| ==> Follows(now, msgs[i]))
  }

  lemma HalfwayStart(parts: seq<Part>, msgs: seq<Record>, maxSize: int)
    requires parts != [] && (msgs != [] ==> Follows(parts, msgs[0]))
    ensures Halfway(parts, parts, msgs, 0, maxSize)
  {
    assert msgs[0..] == msgs;
  }

  lemma HalfwayDone(now: seq<Part>, parts: seq<Part>, msgs: seq<Record>, maxSize: int)
    requires Halfway(now, parts, msgs, |msgs|, maxSize)
    ensures now == AllStored(parts, msgs, maxSize)
  {
    assert msgs[|msgs|..] == [];
  }

  lemma HalfwayStep(now: seq<Part>, parts: seq<Part>, msgs: seq<Record>, i: int, start: int, maxSize: int)
    requires Halfway(now, parts, msgs, i, maxSize) && i < |msgs| && Numbered(msgs, start)
    ensures Halfway(Stored(now, msgs[i], maxSize), parts, msgs, i + 1, maxSize)
  {
    assert msgs[i..][1..] == msgs[i + 1..];
    assert i + 1 < |msgs| ==> msgs[i].offset < msgs[i + 1].offset;
  }

  // A non-positive budget buys nothing.
  lemma GatheredFree(parts: seq<Part>, from: int, budget: int)
    requires budget <= 0
    ensures Gathered(parts, from, budget) == []
  {
  }

  lemma RunInside<T>(ms: seq<T>, at: nat, c: seq<T>, from: nat, rest: seq<T>, r: seq<T>)
    requires at <= from <= at + |c| <= |ms| && c == ms[at..at + |c|] && rest == c[from - at..] && r <= rest
    ensures from + |r| <= |ms| && r == ms[from..from + |r|]
  {
    assert r == rest[..|r|];
  }

  // r is a run of ms that starts at index `from`, and is not empty.
  ghost predicate StartsAt(r: seq<Record>, ms: seq<Record>, from: int) {
    r != [] && 0 <= from && from + |r| <= |ms| && r == ms[from..from + |r|]
  }

  lemma TakeIsRun(ms: seq<Record>, part: Part, from: nat, budget: int)
    requires IsPiece(part, 0, ms) && Holds(part, from) && budget > 0
    ensures StartsAt(TakeBudget(part.contents[from - part.base..], budget), ms, from)
  {
    var rest := part.contents[from - part.base..];
    TakeBudgetPrefix(rest, budget);
    RunInside(ms, part.base, part.contents, from, rest, TakeBudget(rest, budget));
  }

  lemma GatheredIsRun(parts: seq<Part>, ms: seq<Record>, from: nat, budget: int)
    requires Laid(parts, 0, ms) && Numbered(ms, 0) && from < |ms| && budget > 0
    ensures StartsAt(Gathered(parts, from, budget), ms, from)
  {
    var k, part := FetchWindow(parts, 0, ms, from, budget);
    PartHolds(parts, 0, ms, k);
    TakeIsRun(ms, part, from, budget);
  }

  /** Any fetch returns a run of the appended records that starts at the offset asked for, below the high watermark;
      it is empty only if the budget is not positive or nothing is stored from there on. */
  lemma FetchedIsRun(p: Log, all: seq<Record>, from: nat, budget: int)
    requires Sound(p, all)
    ensures if budget <= 0 || from >= p.hwm then Fetched(p, from, budget) == []
            else StartsAt(Fetched(p, from, budget), all[..p.hwm], from)
  {
    if budget <= 0 {
      GatheredFree(p.parts, from, budget);
    } else if from < p.hwm {
      GatheredIsRun(p.parts, all[..p.hwm], from, budget);
    }
  }

  // Negative offsets lie before every segment.
  lemma FetchedBelowZero(p: Log, all: seq<Record>, from: int, budget: int)
    requires Sound(p, all) && from < 0
    ensures Fetched(p, from, budget) == []
  {
  }

  /** What a fetch returns, for any offset and budget: nothing outside the stored offsets or for no budget; otherwise
      the run of appended records from the offset on, as short as reaches the budget, within the one segment that
      holds the offset. */
  lemma FetchIsExact(p: Log, all: seq<Record>, from: int, budget: int) returns (k: nat)
    requires Sound(p, all)
    ensures var r := Fetched(p, from, budget);
            if from < 0 || from >= p.hwm || budget <= 0 then r == []
            else
              && k < |p.parts| && Holds(p.parts[k], from)
              && StartsAt(r, all[..p.hwm], from)
              && IsShortest(r, p.parts[k].contents[from - p.parts[k].base..], budget)
  {
    k := 0;
    if from < 0 {
      FetchedBelowZero(p, all, from, budget);
    } else {
      FetchedIsRun(p, all, from, budget);
      if from < p.hwm && budget > 0 {
        var part;
        k, part := FetchWindow(p.parts, 0, all[..p.hwm], from, budget);
        var rest := part.contents[from - part.base..];
        TakeBudgetIsShortest(rest, budget, TakeBudget(rest, budget));
      }
    }
  }

  // The segments as values.
  ghost function PartsOf(segs: seq<Segment>): (r: seq<Part>)
    reads segs
    ensures |r| == |segs|
    decreases |segs|
  {
    if segs == [] then []
    else
      var s := segs[|segs| - 1];
      PartsOf(segs[..|segs| - 1]) + [Part(s.baseOffset, s.contents)]
  }

  lemma {:induction false} PartsAt(segs: seq<Segment>, i: nat)
    requires i < |segs|
    ensures PartsOf(segs)[i] == Part(segs[i].baseOffset, segs[i].contents)
    decreases |segs|
  {
    if i < |segs| - 1 {
      PartsAt(segs[..|segs| - 1], i);
    }
  }

  // The fetch loop, before segment i: what it has and what the rest will give make up the answer.
  ghost predicate Owed(parts: seq<Part>, i: int, from: int, budget: int, total: int, result: seq<Record>) {
    0 <= i <= |parts| && result + Gathered(parts[i..], from, budget - total) == Gathered(parts, from, budget)
  }

  lemma OwedStart(parts: seq<Part>, from: int, budget: int)
    ensures Owed(parts, 0, from, budget, 0, [])
  {
    assert parts[0..] == parts;
  }

  lemma OwedTurn(parts: seq<Part>, i: int, from: int, budget: int, total: int, result: seq<Record>, got: seq<Record>)
    requires Owed(parts, i, from, budget, total, result) && i < |parts| && parts[i].base <= from
    requires got == Window(parts[i].contents, from, budget - total)
    ensures if total + TotalSize(got) >= budget then result + got == Gathered(parts, from, budget)
            else Owed(parts, i + 1, from, budget, total + TotalSize(got), result + got)
  {
    hide Window, TotalSize;
    assert parts[i..][1..] == parts[i + 1..];
    assert budget - (total + TotalSize(got)) == budget - total - TotalSize(got);
    JoinIsAssociative(result, got, Gathered(parts[i + 1..], from, budget - (total + TotalSize(got))));
  }

  lemma OwedDone(parts: seq<Part>, i: int, from: int, budget: int, total: int, result: seq<Record>)
    requires Owed(parts, i, from, budget, total, result) && (i == |parts| || parts[i].base > from)
    ensures result == Gathered(parts, from, budget)
  {
    assert result + [] == result;
  }

  class Partition {
    var segments: seq<Segment>
    var batch: seq<Record>
    var nextOffset: int
    var hwm: int
    const maxSegSize: int
    // Every record appended so far.
    ghost var appended: seq<Record>

    ghost predicate Valid()
      reads this, segments
    {
      && (forall i :: 0 <= i < |segments| ==> segments[i].Valid() && segments[i].maxSize == maxSegSize)
      && (forall i, j :: 0 <= i < j < |segments| ==> segments[i] != segments[j])
      && maxSegSize > 0
    }

    ghost function Parts(): seq<Part>
      reads this, segments
    {
      PartsOf(segments)
    }

    ghost function State(): Log
      reads this, segments
    {
      Log(Parts(), batch, nextOffset, hwm)
    }

    constructor (maxSegSize: int)
      requires maxSegSize > 0
      ensures Valid() && State() == FRESH && appended == [] && fresh(segments) && Filled(Parts(), maxSegSize)
    {
      var s := new Segment(0, maxSegSize);
      this.maxSegSize, segments := maxSegSize, [s];
      batch, nextOffset, hwm, appended := [], 0, 0, [];
    }

    /** Appending hands out the next offset and queues the record. */
    method Append(key: seq<byte>, value: seq<byte>, timestamp: int64) returns (offset: int64)
      requires Valid() && 0 <= nextOffset < TWO_63 - 1
      modifies this
      ensures Valid() && segments == old(segments)
      ensures offset == old(nextOffset)
      ensures State() == Queued(old(State()), Record(offset, timestamp, key, value))
      ensures appended == old(appended) + [Record(offset, timestamp, key, value)]
      ensures old(Sound(State(), appended)) && |key| < TWO_32 && |value| < TWO_32 ==> Sound(State(), appended)
    {
      hide Sound, Segment.Valid;
      offset := nextOffset;
      var m := Record(offset, timestamp, key, value);
      if Sound(State(), appended) && |key| < TWO_32 && |value| < TWO_32 {
        QueuedIsSound(State(), appended, m);
      }
      nextOffset := nextOffset + 1;
      batch := batch + [m];
      appended := appended + [m];
      assert Parts() == old(Parts());
    }

    method roll(m: Record)
      requires Valid() && Follows(Parts(), m)
      modifies this`segments
      ensures Valid() && Follows(Parts(), m) && Parts() == Rolled(old(Parts()), m.offset, maxSegSize)
      ensures segments == old(segments) || (old(segments) == segments[..|segments| - 1] && fresh(segments[|segments| - 1]))
    {
      hide IndexSound, Increasing, AllFit, EncodeAll, TotalSize;
      EncodedSize(segments[|segments| - 1].contents);
      var full := segments[|segments| - 1].IsFull();
      if full {
        var seg := new Segment(m.offset, maxSegSize);
        segments := segments + [seg];
      }
    }

    method put(m: Record)
      requires Valid() && Fits(m) && Follows(Parts(), m)
      modifies segments[|segments| - 1]
      ensures Valid() && Parts() == Put(old(Parts()), m)
    {
      segments[|segments| - 1].Append(m);
    }

    // One turn of the flush loop.
    method store(m: Record)
      requires Valid() && Fits(m) && Follows(Parts(), m)
      modifies this`segments, this`hwm, segments[|segments| - 1]
      ensures Valid() && Parts() == Stored(old(Parts()), m, maxSegSize) && hwm == m.offset + 1
      ensures segments != [] && (segments[|segments| - 1] == old(segments[|segments| - 1]) || fresh(segments[|segments| - 1]))
    {
      hide Segment.Valid, Put, Rolled;
      hwm := m.offset + 1;
      roll(m);
      put(m);
    }

    // The same, towards storing all of msgs.
    method storeNext(msgs: seq<Record>, i: nat, ghost start: int, ghost parts: seq<Part>)
      requires Valid() && i < |msgs| && Numbered(msgs, start) && Halfway(Parts(), parts, msgs, i, maxSegSize)
      modifies this`segments, this`hwm, segments[|segments| - 1]
      ensures Valid() && Halfway(Parts(), parts, msgs, i + 1, maxSegSize) && hwm == msgs[i].offset + 1
      ensures segments != [] && (segments[|segments| - 1] == old(segments[|segments| - 1]) || fresh(segments[|segments| - 1]))
    {
      HalfwayStep(Parts(), parts, msgs, i, start, maxSegSize);
      store(msgs[i]);
    }

    // The flush loop.
    method storeAll(msgs: seq<Record>, ghost start: int)
      requires Valid() && segments != [] && Numbered(msgs, start) && (msgs != [] ==> Follows(Parts(), msgs[0]))
      modifies this`segments, this`hwm, segments[|segments| - 1]
      ensures Valid() && Parts() == AllStored(old(Parts()), msgs, maxSegSize)
      ensures hwm == if msgs == [] then old(hwm) else msgs[|msgs| - 1].offset + 1
    {
      hide Segment.Valid, Halfway, Numbered, Follows, Stored;
      ghost var parts, active := Parts(), segments[|segments| - 1];
      HalfwayStart(parts, msgs, maxSegSize);
      var i := 0;
      while i < |msgs|
        invariant i <= |msgs| && Valid()
        invariant segments != [] && (segments[|segments| - 1] == active || fresh(segments[|segments| - 1]))
        invariant hwm == if i == 0 then old(hwm) else msgs[i - 1].offset + 1
        invariant Halfway(Parts(), parts, msgs, i, maxSegSize)
      {
        storeNext(msgs, i, start, parts);
        i := i + 1;
      }
      HalfwayDone(Parts(), parts, msgs, maxSegSize);
    }

    /** Flushing moves the whole batch into the segments, and the high watermark past it. */
    method flush()
      requires Valid() && Sound(State(), appended)
      modifies this`segments, this`batch, this`hwm, segments
      ensures Valid() && State() == Flushed(old(State()), maxSegSize)
      ensures Sound(State(), appended) && hwm == nextOffset
      ensures old(Filled(Parts(), maxSegSize)) ==> Filled(Parts(), maxSegSize)
    {
      hide Laid, AllStored, Filled;
      if Filled(Parts(), maxSegSize) {
        FlushedIsFilled(State(), maxSegSize);
      }
      FlushedIsSound(State(), appended, maxSegSize);
      if |batch| == 0 {
        return;
      }
      BatchFollows(State(), appended);
      var msgs := batch;
      batch := [];
      assert Parts() == old(Parts());
      storeAll(msgs, hwm);
    }

    /** A fetch flushes, then returns what the segments hold from the offset on, as far as the budget goes. */
    method Fetch(fromOffset: int, maxBytes: int) returns (result: seq<Record>, mark: int)
      requires Valid() && Sound(State(), appended)
      modifies this`segments, this`batch, this`hwm, segments
      ensures Valid() && Sound(State(), appended) && State() == Flushed(old(State()), maxSegSize)
      ensures old(Filled(Parts(), maxSegSize)) ==> Filled(Parts(), maxSegSize)
      ensures result == Fetched(State(), fromOffset, maxBytes) && mark == hwm == nextOffset
    {
      hide Sound, Flushed, Gathered, PartsOf, Segment.Valid;
      flush();
      mark := hwm;
      if fromOffset >= mark {
        return [], mark;
      }
      result := gather(fromOffset, maxBytes);
    }

    // The fetch loop.
    method gather(fromOffset: int, maxBytes: int) returns (result: seq<Record>)
      requires Valid()
      ensures result == Gathered(Parts(), fromOffset, maxBytes)
    {
      hide Valid, Owed, Gathered;
      ghost var parts := Parts();
      result := [];
      var totalBytes := 0;
      OwedStart(parts, fromOffset, maxBytes);
      var i := 0;
      while i < |segments|
        invariant 0 <= i <= |segments| == |parts|
        invariant Owed(parts, i, fromOffset, maxBytes, totalBytes, result)
      {
        PartsAt(segments, i);
        if segments[i].baseOffset > fromOffset {
          break;
        }
        var msgs, bytes := readPart(i, fromOffset, maxBytes - totalBytes);
        OwedTurn(parts, i, fromOffset, maxBytes, totalBytes, result, msgs);
        result := result + msgs;
        totalBytes := totalBytes + bytes;
        if totalBytes >= maxBytes {
          return;
        }
        i := i + 1;
      }
      OwedDone(parts, i, fromOffset, maxBytes, totalBytes, result);
    }

    method readPart(i: nat, fromOffset: int, maxBytes: int) returns (msgs: seq<Record>, bytes: nat)
      requires Valid() && i < |segments|
      ensures msgs == Window(Parts()[i].contents, fromOffset, maxBytes) && bytes == TotalSize(msgs)
    {
      PartsAt(segments, i);
      msgs := segments[i].Read(fromOffset, maxBytes);
      bytes := bytesOf(msgs);
    }

    static method bytesOf(msgs: seq<Record>) returns (total: nat)
      ensures total == TotalSize(msgs)
    {
      total := 0;
      for j := 0 to |msgs|
        invariant total == TotalSize(msgs[..j])
      {
        TotalSizeOneMore(msgs[..j], msgs[j]);
        SliceOneMore(msgs, 0, j);
        total := total + |msgs[j].key| + |msgs[j].value| + HEADER_SIZE;
      }
      assert msgs[..|msgs|] == msgs;
    }
  }
}
