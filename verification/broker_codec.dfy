/** The binary record format of a segment file (internal/broker/segment.go). */
module RecordCodec {
  import opened Basics

  type byte = x: int | 0 <= x < 256
  type int64 = x: int | -0x8000_0000_0000_0000 <= x < 0x8000_0000_0000_0000

  const TWO_64: int := 0x1_0000_0000_0000_0000
  const TWO_63: int := 0x8000_0000_0000_0000
  const TWO_32: int := 0x1_0000_0000

  const HEADER_SIZE := 24

  datatype Record = Record(offset: int64, timestamp: int64, key: seq<byte>, value: seq<byte>)

  function SizeOf(m: Record): nat {
    HEADER_SIZE + |m.key| + |m.value|
  }

  // The length fields are 32 bits wide.
  predicate Fits(m: Record) {
    |m.key| < TWO_32 && |m.value| < TWO_32
  }

  function Pow256(n: nat): (p: nat)
    ensures p > 0
  {
    if n == 0 then 1 else 256 * Pow256(n - 1)
  }

  // The low n bytes of v, most significant first.
  function PutUint(v: nat, n: nat): (b: seq<byte>)
    ensures |b| == n
  {
    if n == 0 then [] else PutUint(v / 256, n - 1) + [v % 256]
  }

  function GetUint(b: seq<byte>): nat {
    if b == [] then 0 else 256 * GetUint(b[..|b| - 1]) + b[|b| - 1]
  }

  lemma {:induction false} GetPut(v: nat, n: nat)
    requires v < Pow256(n)
    ensures GetUint(PutUint(v, n)) == v
  {
    if n > 0 {
      GetPut(v / 256, n - 1);
      var b := PutUint(v, n);
      assert b[..|b| - 1] == PutUint(v / 256, n - 1);
    }
  }

  lemma {:induction false} GetBound(b: seq<byte>)
    ensures GetUint(b) < Pow256(|b|)
  {
    if b != [] {
      GetBound(b[..|b| - 1]);
    }
  }

  lemma {:induction false} PutGet(b: seq<byte>)
    ensures PutUint(GetUint(b), |b|) == b
  {
    if b != [] {
      PutGet(b[..|b| - 1]);
    }
  }

  lemma DivideTwice(v: nat, d: nat)
    requires d > 0
    ensures v / 256 / d == v / (256 * d)
  {
    var u := v / 256;
    assert v == 256 * u + v % 256 && u == u / d * d + u % d;
    QuotientIs(v, u / d, 256 * (u % d) + v % 256, 256 * d);
  }

  /** The most significant byte comes first. */
  lemma {:induction false} PutUintAt(v: nat, n: nat, k: nat)
    requires k < n
    ensures PutUint(v, n)[k] == v / Pow256(n - 1 - k) % 256
  {
    if k < n - 1 {
      PutUintAt(v / 256, n - 1, k);
      DivideTwice(v, Pow256(n - 2 - k));
    }
  }

  /** A number read has these bytes, most significant first. */
  lemma GetUintAt(b: seq<byte>, k: nat)
    requires k < |b|
    ensures b[k] == GetUint(b) / Pow256(|b| - 1 - k) % 256
  {
    PutGet(b);
    PutUintAt(GetUint(b), |b|, k);
  }

  lemma Widths()
    ensures Pow256(8) == TWO_64 && Pow256(4) == TWO_32
  {
    assert Pow256(2) == 65536 && Pow256(4) == 65536 * 65536;
    assert Pow256(6) == 65536 * Pow256(4) && Pow256(8) == 65536 * Pow256(6);
  }

  // Reinterpreting a signed 64-bit number as unsigned, and back.
  function ToUnsigned(x: int64): nat {
    if x < 0 then x + TWO_64 else x
  }

  function ToSigned(u: nat): int64
    requires u < TWO_64
  {
    if u >= TWO_63 then u - TWO_64 else u
  }

  function Header(m: Record): (h: seq<byte>)
    ensures |h| == HEADER_SIZE
  {
    PutUint(ToUnsigned(m.offset), 8) + PutUint(ToUnsigned(m.timestamp), 8)
    + PutUint(|m.key| % TWO_32, 4) + PutUint(|m.value| % TWO_32, 4)
  }

  function Encode(m: Record): (b: seq<byte>)
    ensures |b| == SizeOf(m)
  {
    Header(m) + m.key + m.value
  }

  // The digit of v, written to base 256, that counts for 256 to the power i.
  function Digit(v: nat, i: nat): byte {
    v / Pow256(i) % 256
  }

  // The bytes of b from this position on are the low n digits of v, most significant first.
  ghost predicate BigEndianAt(b: seq<byte>, at: nat, n: nat, v: nat) {
    at + n <= |b| && forall i: nat :: i < n ==> b[at + n - 1 - i] == Digit(v, i)
  }

  lemma PutAt(b: seq<byte>, at: nat, n: nat, v: nat)
    requires at + n <= |b| && b[at..at + n] == PutUint(v, n)
    ensures BigEndianAt(b, at, n, v)
  {
    hide PutUint, Pow256;
    forall i: nat | i < n ensures b[at + n - 1 - i] == Digit(v, i) {
      PutUintAt(v, n, n - 1 - i);
      assert b[at..at + n][n - 1 - i] == b[at + n - 1 - i];
    }
  }

  lemma UnsignedIs(x: int64)
    ensures ToUnsigned(x) == x % TWO_64
  {
  }

  /**
   The layout of a record: offset, timestamp, key length and value length, big-endian in 8, 8, 4 and 4 bytes, negative
   numbers in two's complement; then the key, then the value.
   */
  lemma Layout(m: Record)
    ensures var b := Encode(m);
            && BigEndianAt(b, 0, 8, m.offset % TWO_64) && BigEndianAt(b, 8, 8, m.timestamp % TWO_64)
            && BigEndianAt(b, 16, 4, |m.key| % TWO_32) && BigEndianAt(b, 20, 4, |m.value| % TWO_32)
            && b[24..24 + |m.key|] == m.key && b[24 + |m.key|..] == m.value
  {
    hide PutUint, BigEndianAt, ToUnsigned;
    var b := Encode(m);
    HeaderParts(m);
    UnsignedIs(m.offset);
    UnsignedIs(m.timestamp);
    assert b[..24] == Header(m);
    PutAt(b, 0, 8, m.offset % TWO_64);
    PutAt(b, 8, 8, m.timestamp % TWO_64);
    PutAt(b, 16, 4, |m.key| % TWO_32);
    PutAt(b, 20, 4, |m.value| % TWO_32);
  }

  datatype Parsed = Incomplete | Complete(record: Record, size: nat)

  function Field64(b: seq<byte>): int64
    requires |b| == 8
  {
    GetBound(b);
    Widths();
    ToSigned(GetUint(b))
  }

  // The four fields of a header.
  datatype Fields = Fields(offset: int64, timestamp: int64, keyLength: nat, valueLength: nat)

  function ParseHeader(h: seq<byte>): Fields
    requires |h| == HEADER_SIZE
  {
    Fields(Field64(h[0..8]), Field64(h[8..16]), GetUint(h[16..20]), GetUint(h[20..24]))
  }

  // The record whose fields are f, if its body is all there.
  function ParseBody(f: Fields, body: seq<byte>): Parsed {
    var size := f.keyLength + f.valueLength;
    if |body| < size then Incomplete
    else Complete(Record(f.offset, f.timestamp, body[..f.keyLength], body[f.keyLength..size]), HEADER_SIZE + size)
  }

  // The record at the front of b, if all of it is there.
  function Decode(b: seq<byte>): (p: Parsed)
    ensures p.Complete? ==> HEADER_SIZE <= p.size <= |b|
  {
    if |b| < HEADER_SIZE then Incomplete else ParseBody(ParseHeader(b[..HEADER_SIZE]), b[HEADER_SIZE..])
  }

  function FieldsOf(m: Record): Fields {
    Fields(m.offset, m.timestamp, |m.key| % TWO_32, |m.value| % TWO_32)
  }

  lemma HeaderParts(m: Record)
    ensures Header(m)[0..8] == PutUint(ToUnsigned(m.offset), 8)
    ensures Header(m)[8..16] == PutUint(ToUnsigned(m.timestamp), 8)
    ensures Header(m)[16..20] == PutUint(|m.key| % TWO_32, 4)
    ensures Header(m)[20..24] == PutUint(|m.value| % TWO_32, 4)
  {
  }

  lemma ParseHeaderOf(m: Record)
    ensures ParseHeader(Header(m)) == FieldsOf(m)
  {
    HeaderParts(m);
    Widths();
    GetPut(ToUnsigned(m.offset), 8);
    GetPut(ToUnsigned(m.timestamp), 8);
    GetPut(|m.key| % TWO_32, 4);
    GetPut(|m.value| % TWO_32, 4);
  }

  lemma DecodeFrom(h: seq<byte>, f: Fields, body: seq<byte>)
    requires |h| == HEADER_SIZE && ParseHeader(h) == f
    ensures Decode(h + body) == ParseBody(f, body)
  {
    assert (h + body)[..HEADER_SIZE] == h && (h + body)[HEADER_SIZE..] == body;
  }

  lemma BodyOf(m: Record, rest: seq<byte>)
    requires Fits(m)
    ensures ParseBody(FieldsOf(m), m.key + m.value + rest) == Complete(m, SizeOf(m))
  {
    var body := m.key + m.value + rest;
    assert body[..|m.key|] == m.key && body[|m.key|..|m.key| + |m.value|] == m.value;
  }

  lemma DecodeEncode(m: Record, rest: seq<byte>)
    ensures Decode(Encode(m) + rest) == ParseBody(FieldsOf(m), m.key + m.value + rest)
    ensures Fits(m) ==> Decode(Encode(m) + rest) == Complete(m, SizeOf(m))
  {
    assert Encode(m) + rest == Header(m) + (m.key + m.value + rest);
    ParseHeaderOf(m);
    DecodeFrom(Header(m), FieldsOf(m), m.key + m.value + rest);
    if Fits(m) {
      BodyOf(m, rest);
    }
  }

  /** A record survives encoding and decoding exactly when its key and value lengths fit their fields. */
  lemma RoundTripIff(m: Record, rest: seq<byte>)
    ensures Decode(Encode(m) + rest) == Complete(m, SizeOf(m)) <==> Fits(m)
  {
    DecodeEncode(m, rest);
  }

  // A cut-off record is not taken for a record.
  lemma CutRecordIncomplete(m: Record, n: nat)
    requires Fits(m) && n < SizeOf(m)
    ensures Decode(Encode(m)[..n]) == Incomplete
  {
    if n >= HEADER_SIZE {
      var body := (m.key + m.value)[..n - HEADER_SIZE];
      assert Encode(m)[..n] == Header(m) + body;
      ParseHeaderOf(m);
      DecodeFrom(Header(m), FieldsOf(m), body);
    }
  }

  function EncodeAll(ms: seq<Record>): seq<byte> {
    if ms == [] then [] else Encode(ms[0]) + EncodeAll(ms[1..])
  }

  // All records wholly at the front of b; each takes at least a header.
  function Scan(b: seq<byte>): seq<Record>
    decreases |b|
  {
    match Decode(b)
    case Incomplete => []
    case Complete(m, size) => [m] + Scan(b[size..])
  }

  predicate AllFit(ms: seq<Record>) {
    forall i :: 0 <= i < |ms| ==> Fits(ms[i])
  }

  lemma {:induction false} EncodeAllConcat(a: seq<Record>, b: seq<Record>)
    ensures EncodeAll(a + b) == EncodeAll(a) + EncodeAll(b)
  {
    if a == [] {
      assert a + b == b;
    } else {
      assert (a + b)[1..] == a[1..] + b;
      EncodeAllConcat(a[1..], b);
    }
  }

  lemma EncodeAllOneMore(ms: seq<Record>, m: Record)
    ensures EncodeAll(ms + [m]) == EncodeAll(ms) + Encode(m)
  {
    EncodeAllConcat(ms, [m]);
    assert [m][1..] == [];
    assert EncodeAll([m]) == Encode(m) + EncodeAll([m][1..]);
    assert EncodeAll([m]) == Encode(m);
  }

  // How many of the records lie wholly within the first n bytes.
  function WholeWithin(ms: seq<Record>, n: int): (k: nat)
    ensures k <= |ms|
  {
    if ms == [] || n < SizeOf(ms[0]) then 0 else 1 + WholeWithin(ms[1..], n - SizeOf(ms[0]))
  }

  lemma {:induction false} WholeWithinIsGreatest(ms: seq<Record>, n: nat)
    ensures var k := WholeWithin(ms, n);
            && |EncodeAll(ms[..k])| <= n
            && (k < |ms| ==> n < |EncodeAll(ms[..k + 1])|)
  {
    if ms != [] && n >= SizeOf(ms[0]) {
      WholeWithinIsGreatest(ms[1..], n - SizeOf(ms[0]));
      var k := WholeWithin(ms[1..], n - SizeOf(ms[0]));
      assert ms[..k + 1][1..] == ms[1..][..k];
      if k + 1 < |ms| {
        assert ms[..k + 2][1..] == ms[1..][..k + 1];
      }
    } else if ms != [] {
      assert ms[..1][1..] == [];
    }
  }

  lemma ScanOne(m: Record, rest: seq<byte>)
    requires Fits(m)
    ensures Scan(Encode(m) + rest) == [m] + Scan(rest)
  {
    DecodeEncode(m, rest);
    assert (Encode(m) + rest)[SizeOf(m)..] == rest;
  }

  /** Scanning a file of records returns them all. */
  lemma {:induction false} ScanEncodeAll(ms: seq<Record>)
    requires AllFit(ms)
    ensures Scan(EncodeAll(ms)) == ms
  {
    if ms != [] {
      ScanOne(ms[0], EncodeAll(ms[1..]));
      ScanEncodeAll(ms[1..]);
    }
  }

  lemma TakeOfConcat(a: seq<byte>, b: seq<byte>, n: nat)
    requires n <= |a| + |b|
    ensures n <= |a| ==> (a + b)[..n] == a[..n]
    ensures n >= |a| ==> (a + b)[..n] == a + b[..n - |a|]
  {
  }

  /** Scanning any truncation of a file of records returns exactly the records wholly inside it. */
  lemma {:induction false} ScanTruncated(ms: seq<Record>, n: nat)
    requires AllFit(ms) && n <= |EncodeAll(ms)|
    ensures Scan(EncodeAll(ms)[..n]) == ms[..WholeWithin(ms, n)]
  {
    if ms != [] {
      var m, rest := ms[0], EncodeAll(ms[1..]);
      TakeOfConcat(Encode(m), rest, n);
      if n < SizeOf(m) {
        CutRecordIncomplete(m, n);
      } else {
        ScanOne(m, rest[..n - SizeOf(m)]);
        ScanTruncated(ms[1..], n - SizeOf(m));
        PrefixFromFirst(ms, WholeWithin(ms[1..], n - SizeOf(m)));
      }
    }
  }
}
