/** One segment file with its sparse index (internal/broker/segment.go). */
module Segments {
  import opened Basics
  import opened RecordCodec

  datatype IndexEntry = IndexEntry(offset: int, position: int)

  // Offsets strictly increase.
  ghost predicate Increasing(ms: seq<Record>) {
    forall i, j :: 0 <= i < j < |ms| ==> ms[i].offset < ms[j].offset
  }

  function TotalSize(ms: seq<Record>): nat {
    if ms == [] then 0 else SizeOf(ms[0]) + TotalSize(ms[1..])
  }

  lemma {:induction false} EncodedSize(ms: seq<Record>)
    ensures |EncodeAll(ms)| == TotalSize(ms)
  {
    if ms != [] {
      EncodedSize(ms[1..]);
    }
  }

  // What Read collects from the bytes at its cursor, with `budget` bytes still to go.
  function ReadFrom(b: seq<byte>, from: int, budget: int): seq<Record>
    decreases |b|
  {
    if budget <= 0 then []
    else
      match Decode(b)
      case Incomplete => []
      case Complete(m, size) =>
        if m.offset < from then ReadFrom(b[size..], from, budget)
        else [m] + ReadFrom(b[size..], from, budget - size)
  }

  lemma ReadOne(m: Record, rest: seq<byte>, from: int, budget: int)
    requires Fits(m) && budget > 0
    ensures ReadFrom(Encode(m) + rest, from, budget)
            == if m.offset < from then ReadFrom(rest, from, budget) else [m] + ReadFrom(rest, from, budget - SizeOf(m))
  {
    DecodeEncode(m, rest);
    assert (Encode(m) + rest)[SizeOf(m)..] == rest;
  }

  // The shortest prefix that reaches the budget, or all.
  function TakeBudget(ms: seq<Record>, budget: int): seq<Record> {
    if budget <= 0 || ms == [] then [] else [ms[0]] + TakeBudget(ms[1..], budget - SizeOf(ms[0]))
  }

  // r is a prefix that reaches the budget or is all there is, and no shorter prefix reaches it.
  ghost predicate IsShortest(r: seq<Record>, ms: seq<Record>, budget: int) {
    && r <= ms
    && (r == ms || TotalSize(r) >= budget)
    && (r != [] ==> TotalSize(r[..|r| - 1]) < budget)
  }

  lemma {:induction false} TakeBudgetIsShortest(ms: seq<Record>, budget: int, r: seq<Record>)
    ensures r == TakeBudget(ms, budget) <==> IsShortest(r, ms, budget)
  {
    if budget > 0 && ms != [] {
      var rest := r[if r == [] then 0 else 1..];
      TakeBudgetIsShortest(ms[1..], budget - SizeOf(ms[0]), rest);
      if |r| > 1 {
        assert r[..|r| - 1][1..] == rest[..|rest| - 1];
      }
    }
  }

  lemma TakeBudgetPrefix(ms: seq<Record>, budget: int)
    ensures TakeBudget(ms, budget) <= ms
    ensures TakeBudget(ms, budget) == [] <==> budget <= 0 || ms == []
  {
    TakeBudgetIsShortest(ms, budget, TakeBudget(ms, budget));
  }

  lemma {:induction false} TotalSizeOneMore(ms: seq<Record>, m: Record)
    ensures TotalSize(ms + [m]) == TotalSize(ms) + SizeOf(m)
  {
    if ms == [] {
      assert [m][1..] == [];
    } else {
      assert (ms + [m])[1..] == ms[1..] + [m];
      TotalSizeOneMore(ms[1..], m);
    }
  }

  // The index of the first record at or past offset from.
  function FirstFrom(ms: seq<Record>, from: int): (k: nat)
    ensures k <= |ms|
    ensures forall i :: 0 <= i < k ==> ms[i].offset < from
    ensures k < |ms| ==> ms[k].offset >= from
  {
    if ms == [] || ms[0].offset >= from then 0 else 1 + FirstFrom(ms[1..], from)
  }

  // What a read of these records should return: from the first wanted one, as far as the budget goes.
  function Window(ms: seq<Record>, from: int, budget: int): seq<Record> {
    TakeBudget(ms[FirstFrom(ms, from)..], budget)
  }

  // A reader has passed the first i records and kept msgs, of `total` bytes.
  ghost predicate Collected(ms: seq<Record>, from: int, budget: int, i: int, msgs: seq<Record>, total: int) {
    var f := FirstFrom(ms, from);
    && 0 <= i <= |ms|
    && msgs == (if i <= f then [] else ms[f..i])
    && total == TotalSize(msgs)
    && (i > f ==> TotalSize(ms[f..i - 1]) < budget)
  }

  lemma CollectStart(ms: seq<Record>, from: int, budget: int, i: int)
    requires 0 <= i <= |ms| && forall j :: 0 <= j < i ==> ms[j].offset < from
    ensures Collected(ms, from, budget, i, [], 0)
  {
  }

  lemma CollectStep(ms: seq<Record>, from: int, budget: int, i: int, msgs: seq<Record>, total: int)
    requires Increasing(ms) && Collected(ms, from, budget, i, msgs, total)
    requires i < |ms| && total < budget
    ensures if ms[i].offset < from then Collected(ms, from, budget, i + 1, msgs, total)
            else Collected(ms, from, budget, i + 1, msgs + [ms[i]], total + SizeOf(ms[i]))
  {
    var f := FirstFrom(ms, from);
    if i >= f {
      assert ms[f].offset <= ms[i].offset;
      assert ms[f..f] == [];
      SliceOneMore(ms, f, i);
      TotalSizeOneMore(ms[f..i], ms[i]);
    }
  }

  lemma CollectDone(ms: seq<Record>, from: int, budget: int, i: int, msgs: seq<Record>, total: int)
    requires Collected(ms, from, budget, i, msgs, total)
    requires total >= budget || i == |ms|
    ensures msgs == Window(ms, from, budget)
  {
    var f := FirstFrom(ms, from);
    if i > f {
      assert msgs == ms[f..][..i - f] && msgs[..|msgs| - 1] == ms[f..i - 1];
      TakeBudgetIsShortest(ms[f..], budget, msgs);
    }
  }

  lemma ReadFront(ms: seq<Record>, from: int, budget: int)
    requires ms != [] && Fits(ms[0]) && ms[0].offset >= from && budget > 0
    ensures ReadFrom(EncodeAll(ms), from, budget)
            == [ms[0]] + ReadFrom(EncodeAll(ms[1..]), from, budget - SizeOf(ms[0]))
  {
    hide Decode;
    ReadOne(ms[0], EncodeAll(ms[1..]), from, budget);
  }

  lemma ReadNothing(from: int, budget: int)
    ensures ReadFrom(EncodeAll([]), from, budget) == []
  {
  }

  // Past the first wanted record, all are wanted.
  lemma {:induction false} ReadWanted(ms: seq<Record>, from: int, budget: int)
    requires AllFit(ms) && forall i :: 0 <= i < |ms| ==> ms[i].offset >= from
    ensures ReadFrom(EncodeAll(ms), from, budget) == TakeBudget(ms, budget)
  {
    hide Decode;
    if ms == [] {
      ReadNothing(from, budget);
    } else if budget > 0 {
      ReadFront(ms, from, budget);
      ReadWanted(ms[1..], from, budget - SizeOf(ms[0]));
    }
  }

  // Unwanted records in front are passed over and cost nothing.
  lemma {:induction false} ReadSkips(front: seq<Record>, b: seq<byte>, from: int, budget: int)
    requires AllFit(front) && forall i :: 0 <= i < |front| ==> front[i].offset < from
    ensures ReadFrom(EncodeAll(front) + b, from, budget) == ReadFrom(b, from, budget)
  {
    if front == [] {
      assert EncodeAll(front) + b == b;
    } else if budget > 0 {
      var rest := EncodeAll(front[1..]) + b;
      assert EncodeAll(front) + b == Encode(front[0]) + rest;
      ReadOne(front[0], rest, from, budget);
      ReadSkips(front[1..], b, from, budget);
    }
  }

  /** A full scan returns exactly the window asked for. */
  lemma ReadIsWindow(ms: seq<Record>, from: int, budget: int)
    requires AllFit(ms) && Increasing(ms)
    ensures ReadFrom(EncodeAll(ms), from, budget) == Window(ms, from, budget)
  {
    var k := FirstFrom(ms, from);
    assert ms == ms[..k] + ms[k..];
    EncodeAllConcat(ms[..k], ms[k..]);
    ReadSkips(ms[..k], EncodeAll(ms[k..]), from, budget);
    ReadWanted(ms[k..], from, budget);
  }

  // Where record i starts.
  function PositionOf(ms: seq<Record>, i: nat): nat
    requires i <= |ms|
  {
    |EncodeAll(ms[..i])|
  }

  ghost predicate EntrySound(ms: seq<Record>, e: IndexEntry) {
    exists i :: 0 <= i < |ms| && IsStart(ms, e, i)
  }

  predicate IsStart(ms: seq<Record>, e: IndexEntry, i: int)
    requires 0 <= i < |ms|
  {
    e.offset == ms[i].offset && e.position == PositionOf(ms, i)
  }

  // Entries are sorted, and each points at the start of the record with its offset.
  ghost predicate IndexSound(ms: seq<Record>, index: seq<IndexEntry>) {
    && (forall a, b :: 0 <= a < b < |index| ==> index[a].offset < index[b].offset)
    && (forall a :: 0 <= a < |index| ==> EntrySound(ms, index[a]))
  }

  // Entries up to the first one past the offset are followed; the last of them counts.
  function FindPosition(index: seq<IndexEntry>, offset: int, pos: int): int {
    if index == [] || index[0].offset > offset then pos else FindPosition(index[1..], offset, index[0].position)
  }

  // The first k entries are all those before the first one past the offset.
  ghost predicate Followed(index: seq<IndexEntry>, offset: int, k: int) {
    && 0 <= k <= |index| && (k < |index| ==> index[k].offset > offset)
    && forall a :: 0 <= a < k ==> index[a].offset <= offset
  }

  /** A search ends at the last entry before the first one past the offset, for any index. */
  lemma {:induction false} FindsLastFollowed(index: seq<IndexEntry>, offset: int, pos: int, k: nat)
    requires Followed(index, offset, k)
    ensures FindPosition(index, offset, pos) == if k == 0 then pos else index[k - 1].position
  {
    if k > 0 {
      assert index[0].offset <= offset;
      FindsLastFollowed(index[1..], offset, index[0].position, k - 1);
    }
  }

  lemma {:induction false} FoundInIndex(index: seq<IndexEntry>, offset: int, pos: int)
    ensures FindPosition(index, offset, pos) == pos
            || exists a :: 0 <= a < |index| && index[a].offset <= offset && FindPosition(index, offset, pos) == index[a].position
  {
    if index != [] && index[0].offset <= offset {
      FoundInIndex(index[1..], offset, index[0].position);
      var p := FindPosition(index[1..], offset, index[0].position);
      if p != index[0].position {
        var a :| 0 <= a < |index[1..]| && index[1..][a].offset <= offset && p == index[1..][a].position;
        assert index[a + 1] == index[1..][a];
      }
    }
  }

  lemma SkipToRecord(ms: seq<Record>, i: nat, from: int, budget: int)
    requires AllFit(ms) && i <= |ms| && forall j :: 0 <= j < i ==> ms[j].offset < from
    ensures PositionOf(ms, i) <= |EncodeAll(ms)|
    ensures ReadFrom(EncodeAll(ms)[PositionOf(ms, i)..], from, budget) == ReadFrom(EncodeAll(ms), from, budget)
  {
    assert ms == ms[..i] + ms[i..];
    EncodeAllConcat(ms[..i], ms[i..]);
    assert EncodeAll(ms)[PositionOf(ms, i)..] == EncodeAll(ms[i..]);
    ReadSkips(ms[..i], EncodeAll(ms[i..]), from, budget);
  }

  /** Reading from where the index points gives what a scan from the start gives, for any sound index. */
  lemma IndexedReadIsFullScan(ms: seq<Record>, index: seq<IndexEntry>, from: int, budget: int)
    requires AllFit(ms) && Increasing(ms) && IndexSound(ms, index)
    ensures 0 <= FindPosition(index, from, 0) <= |EncodeAll(ms)|
    ensures ReadFrom(EncodeAll(ms)[FindPosition(index, from, 0)..], from, budget) == ReadFrom(EncodeAll(ms), from, budget)
  {
    var pos := FindPosition(index, from, 0);
    FoundInIndex(index, from, 0);
    if pos == 0 {
      assert EncodeAll(ms)[0..] == EncodeAll(ms);
    } else {
      var a :| 0 <= a < |index| && index[a].offset <= from && pos == index[a].position;
      assert EntrySound(ms, index[a]);
      var i :| 0 <= i < |ms| && IsStart(ms, index[a], i);
      SkipToRecord(ms, i, from, budget);
    }
  }

  // Where the index points, a record starts (or the file ends), and no wanted record lies before it.
  lemma StartsAtRecord(ms: seq<Record>, index: seq<IndexEntry>, from: int) returns (i: nat)
    requires Increasing(ms) && IndexSound(ms, index)
    ensures i <= |ms| && FindPosition(index, from, 0) == PositionOf(ms, i)
    ensures forall j :: 0 <= j < i ==> ms[j].offset < from
  {
    FoundInIndex(index, from, 0);
    if FindPosition(index, from, 0) == 0 {
      i := 0;
    } else {
      var a :| 0 <= a < |index| && index[a].offset <= from && FindPosition(index, from, 0) == index[a].position;
      assert EntrySound(ms, index[a]);
      i :| 0 <= i < |ms| && IsStart(ms, index[a], i);
    }
  }

  // What the bytes hold from record i on.
  lemma RecordAt(ms: seq<Record>, i: nat)
    requires AllFit(ms) && i <= |ms|
    ensures PositionOf(ms, i) <= |EncodeAll(ms)|
    ensures Decode(EncodeAll(ms)[PositionOf(ms, i)..]) == if i < |ms| then Complete(ms[i], SizeOf(ms[i])) else Incomplete
    ensures i < |ms| ==> PositionOf(ms, i + 1) == PositionOf(ms, i) + SizeOf(ms[i])
  {
    assert ms == ms[..i] + ms[i..];
    EncodeAllConcat(ms[..i], ms[i..]);
    assert EncodeAll(ms)[PositionOf(ms, i)..] == EncodeAll(ms[i..]);
    if i < |ms| {
      DecodeEncode(ms[i], EncodeAll(ms[i..][1..]));
      assert ms[..i + 1] == ms[..i] + [ms[i]];
      EncodeAllOneMore(ms[..i], ms[i]);
    }
  }

  // The index after appending a record that starts at pos.
  function IndexAfter(index: seq<IndexEntry>, m: Record, pos: int): seq<IndexEntry> {
    if |index| % 8 == 0 then index + [IndexEntry(m.offset, pos)] else index
  }

  lemma EntryStaysSound(ms: seq<Record>, e: IndexEntry, m: Record)
    requires EntrySound(ms, e) && Increasing(ms + [m])
    ensures EntrySound(ms + [m], e) && e.offset < m.offset
  {
    var i :| 0 <= i < |ms| && IsStart(ms, e, i);
    var ms' := ms + [m];
    assert ms'[..i] == ms[..i] && ms'[i] == ms[i] && ms'[|ms|] == m;
    assert IsStart(ms', e, i);
  }

  lemma NewEntrySound(ms: seq<Record>, m: Record)
    ensures EntrySound(ms + [m], IndexEntry(m.offset, |EncodeAll(ms)|))
  {
    assert (ms + [m])[..|ms|] == ms;
    assert IsStart(ms + [m], IndexEntry(m.offset, |EncodeAll(ms)|), |ms|);
  }

  /** Appending keeps a sound index sound. */
  lemma IndexStaysSound(ms: seq<Record>, index: seq<IndexEntry>, m: Record)
    requires IndexSound(ms, index) && Increasing(ms + [m])
    ensures IndexSound(ms + [m], IndexAfter(index, m, |EncodeAll(ms)|))
  {
    hide EntrySound, Increasing, EncodeAll;
    forall a | 0 <= a < |index| ensures EntrySound(ms + [m], index[a]) && index[a].offset < m.offset {
      EntryStaysSound(ms, index[a], m);
    }
    NewEntrySound(ms, m);
  }

  lemma AppendedIsSound(ms: seq<Record>, index: seq<IndexEntry>, m: Record)
    ensures AllFit(ms) && Increasing(ms) && IndexSound(ms, index) && Fits(m) && (ms != [] ==> ms[|ms| - 1].offset < m.offset) ==>
              AllFit(ms + [m]) && Increasing(ms + [m]) && IndexSound(ms + [m], IndexAfter(index, m, |EncodeAll(ms)|))
  {
    if Increasing(ms) && IndexSound(ms, index) && (ms != [] ==> ms[|ms| - 1].offset < m.offset) {
      assert Increasing(ms + [m]);
      IndexStaysSound(ms, index, m);
    }
  }

  // The index after appending all the records to an empty segment.
  function IndexOf(ms: seq<Record>): seq<IndexEntry> {
    if ms == [] then []
    else
      var front := ms[..|ms| - 1];
      IndexAfter(IndexOf(front), ms[|ms| - 1], |EncodeAll(front)|)
  }

  /** The index is never sparse but stunted: its guard counts its own entries, so it stops at the first record. */
  lemma {:induction false} IndexStopsAtFirst(ms: seq<Record>)
    ensures IndexOf(ms) == if ms == [] then [] else [IndexEntry(ms[0].offset, 0)]
  {
    if ms != [] {
      IndexStopsAtFirst(ms[..|ms| - 1]);
    }
  }

  class Segment {
    const baseOffset: int
    var file: seq<byte>
    var size: int
    const maxSize: int
    var index: seq<IndexEntry>
    ghost var contents: seq<Record>

    // The file is the encoded records, whatever they are.
    ghost predicate Written()
      reads this
    {
      file == EncodeAll(contents) && size == |file|
    }

    // ... and they can be read back: each fits its encoding, and offsets increase.
    ghost predicate Valid()
      reads this
    {
      Written() && AllFit(contents) && Increasing(contents) && IndexSound(contents, index)
    }

    constructor (baseOffset: int, maxSize: int)
      ensures Valid() && contents == [] && index == [] && this.baseOffset == baseOffset && this.maxSize == maxSize
    {
      this.baseOffset, this.maxSize := baseOffset, maxSize;
      file, size, index, contents := [], 0, [], [];
    }

    /** The file gains exactly the encoded record; what can be read back stays so if the record fits and its offset is new. */
    method Append(m: Record)
      requires Written()
      modifies this
      ensures Written() && contents == old(contents) + [m]
      ensures file == old(file) + Encode(m) && index == IndexAfter(old(index), m, old(size))
      ensures old(Valid()) && Fits(m) && (old(contents) != [] ==> old(contents)[|old(contents)| - 1].offset < m.offset) ==> Valid()
    {
      hide IndexSound, Increasing, Fits;
      AppendedIsSound(contents, index, m);
      var pos := size;
      var buf := PutUint(ToUnsigned(m.offset), 8) + PutUint(ToUnsigned(m.timestamp), 8)
      + PutUint(|m.key| % TWO_32, 4) + PutUint(|m.value| % TWO_32, 4);
      buf := buf + m.key + m.value;
      EncodeAllOneMore(contents, m);
      file := file + buf;
      size := size + |buf|;
      if |index| % 8 == 0 {
        index := index + [IndexEntry(m.offset, pos)];
      }
      contents := contents + [m];
    }

    method findPosition(offset: int) returns (pos: int)
      ensures pos == FindPosition(index, offset, 0)
      ensures exists k :: Followed(index, offset, k) && pos == if k == 0 then 0 else index[k - 1].position
    {
      pos := 0;
      var i := 0;
      while i < |index|
        invariant 0 <= i <= |index| && pos == if i == 0 then 0 else index[i - 1].position
        invariant forall a :: 0 <= a < i ==> index[a].offset <= offset
        invariant FindPosition(index[i..], offset, pos) == FindPosition(index, offset, 0)
      {
        if index[i].offset > offset {
          break;
        }
        pos := index[i].position;
        i := i + 1;
      }
      assert Followed(index, offset, i);
    }

    /** The record at the cursor: the reader meets the records in order, then the end of the file. */
    method readRecord(pos: int, ghost i: nat) returns (parsed: Parsed)
      requires Valid() && i <= |contents| && pos == PositionOf(contents, i)
      ensures parsed == if i < |contents| then Complete(contents[i], SizeOf(contents[i])) else Incomplete
      ensures i < |contents| ==> pos + SizeOf(contents[i]) == PositionOf(contents, i + 1)
    {
      RecordAt(contents, i);
      parsed := Decode(file[pos..]);
    }

    /** A read returns the window of the contents asked for. */
    method Read(fromOffset: int, maxBytes: int) returns (msgs: seq<Record>)
      requires Valid()
      ensures msgs == Window(contents, fromOffset, maxBytes)
    {
      hide Collected, EncodeAll, PositionOf, FindPosition, Followed, IndexSound, AllFit, Increasing, Window, SizeOf;
      var pos := findPosition(fromOffset);
      ghost var i := StartsAtRecord(contents, index, fromOffset);
      CollectStart(contents, fromOffset, maxBytes, i);
      msgs := [];
      var totalBytes := 0;
      while totalBytes < maxBytes
        invariant i <= |contents| && Collected(contents, fromOffset, maxBytes, i, msgs, totalBytes)
        invariant pos == PositionOf(contents, i)
        decreases |contents| - i
      {
        var parsed := readRecord(pos, i);
        if parsed.Incomplete? {
          break;
        }
        CollectStep(contents, fromOffset, maxBytes, i, msgs, totalBytes);
        pos := pos + parsed.size;
        i := i + 1;
        if parsed.record.offset < fromOffset {
          continue;
        }
        msgs := msgs + [parsed.record];
        totalBytes := totalBytes + parsed.size;
      }
      CollectDone(contents, fromOffset, maxBytes, i, msgs, totalBytes);
    }

    method IsFull() returns (full: bool)
      ensures full <==> size >= maxSize
    {
      return size >= maxSize;
    }
  }
}
