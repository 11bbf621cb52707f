/**
  The hand-written reader of GeoSite and GeoIP files, against an encoder that
  follows the Protocol Buffers wire format ("Encoding", Message Structure): a
  record is a varint tag, field number times eight plus wire type, and a body.
*/
module GeoWire {
  import opened Powers
  import opened Text

  type Byte = x: int | 0 <= x < 256

  const MAX_DAT_BYTES := 0x800_0000

  const TWO_63 := 0x8000_0000_0000_0000
  const TWO_64 := 0x1_0000_0000_0000_0000

  // ----- varints -----

  /** The number that seven-bit groups spell, lowest first. */
  function Value(bs: seq<Byte>): nat {
    if bs == [] then 0 else bs[0] % 128 + 128 * Value(bs[1..])
  }

  /** Continuation bytes and one last byte. */
  predicate IsVarint(bs: seq<Byte>) {
    bs != [] && bs[|bs| - 1] < 128 && forall i :: 0 <= i < |bs| - 1 ==> bs[i] >= 128
  }

  function EncodeVarint(n: nat): (bs: seq<Byte>)
    ensures IsVarint(bs) && Value(bs) == n
  {
    if n < 128 then [n] else [n % 128 + 128] + EncodeVarint(n / 128)
  }

  function Pow128(k: nat): (p: nat)
    ensures p > 0
  {
    if k == 0 then 1 else 128 * Pow128(k - 1)
  }

  lemma {:induction false} EncodedLength(n: nat, k: nat)
    requires k > 0 && n < Pow128(k)
    ensures |EncodeVarint(n)| <= k
  {
    if n >= 128 {
      assert k > 1 by { assert Pow128(1) == 128 * Pow128(0); }
      EncodedLength(n / 128, k - 1);
    }
  }

  lemma {:induction false} TenBytesHold64Bits(n: nat)
    requires n < TWO_64
    ensures |EncodeVarint(n)| <= 10
  {
    assert Pow128(2) == 128 * Pow128(1) == 16384;
    assert Pow128(4) == 128 * (128 * Pow128(2)) == 0x1000_0000;
    assert Pow128(6) == 128 * (128 * Pow128(4)) == 0x400_0000_0000;
    assert Pow128(8) == 128 * (128 * Pow128(6)) == 0x100_0000_0000_0000;
    assert Pow128(10) == 128 * (128 * Pow128(8)) == 0x40_0000_0000_0000_0000;
    EncodedLength(n, 10);
  }

  lemma {:induction false} ValueSnoc(bs: seq<Byte>, b: Byte)
    ensures Value(bs + [b]) == Value(bs) + (b % 128) * Pow128(|bs|)
  {
    if bs == [] {
      assert [b][1..] == [];
      assert [] + [b] == [b];
    } else {
      assert (bs + [b])[1..] == bs[1..] + [b];
      ValueSnoc(bs[1..], b);
      assert 128 * ((b % 128) * Pow128(|bs| - 1)) == (b % 128) * Pow128(|bs|);
    }
  }

  /** What reading a varint at an offset gives: ten bytes at most, and 64 bits of them. */
  ghost predicate VarintRead(buf: seq<Byte>, off: nat, v: nat, next: nat, ok: bool)
    requires off <= |buf|
  {
    if ok then
      off < next <= |buf| && next - off <= 10 && IsVarint(buf[off..next]) && v == Value(buf[off..next]) % TWO_64
    else forall k :: off <= k < |buf| && k < off + 10 ==> buf[k] >= 128
  }

  /** Bit by bit, whatever the width. */
  function BitOr(a: nat, b: nat): nat {
    if a == 0 then b
    else if b == 0 then a
    else (if a % 2 == 1 || b % 2 == 1 then 1 else 0) + 2 * BitOr(a / 2, b / 2)
  }

  /** Or with bits that all lie above is addition. */
  lemma {:induction false} OrAbove(a: nat, k: nat, n: nat)
    requires a < Pow2(n)
    ensures BitOr(a, k * Pow2(n)) == a + k * Pow2(n)
  {
    if n > 0 && a > 0 && k > 0 {
      assert k * Pow2(n) == 2 * (k * Pow2(n - 1));
      OrAbove(a / 2, k, n - 1);
    }
  }

  lemma {:induction false} GroupsAreBits(i: nat)
    ensures Pow128(i) == Pow2(7 * i)
  {
    if i > 0 {
      GroupsAreBits(i - 1);
      Pow2Add(7, 7 * (i - 1));
      assert Pow2(7) == 2 * Pow2(6) == 4 * Pow2(5) == 8 * Pow2(4) == 16 * Pow2(3) == 128;
    }
  }

  lemma {:induction false} GroupPlaces()
    ensures Pow128(9) == TWO_63 && Pow128(8) == 0x100_0000_0000_0000
  {
    assert Pow128(2) == 128 * Pow128(1) == 16384;
    assert Pow128(4) == 128 * (128 * Pow128(2)) == 0x1000_0000;
    assert Pow128(6) == 128 * (128 * Pow128(4)) == 0x400_0000_0000;
    assert Pow128(8) == 128 * (128 * Pow128(6));
  }

  lemma {:induction false} PlacesGrow(i: nat, k: nat)
    requires i <= k
    ensures Pow128(i) <= Pow128(k)
  {
    if i < k { PlacesGrow(i, k - 1); }
  }

  /** The group or-ed in on 64 bits lies above those already there, so the wrapped sum is the same. */
  lemma {:induction false} OrIsSum(v: nat, low: nat, i: nat)
    requires i < 10 && v < Pow128(i) && low < 128
    ensures BitOr(v, (low * Pow128(i)) % TWO_64) == (v + low * Pow128(i)) % TWO_64
  {
    hide Pow128, BitOr, Pow2;
    GroupPlaces();
    GroupsAreBits(i);
    if i < 9 {
      PlacesGrow(i, 8);
      SmallGroup(v, low, Pow128(i));
      OrAbove(v, low, 7 * i);
    } else {
      TopGroup(v, low);
      OrAbove(v, low % 2, 7 * i);
    }
  }

  lemma {:induction false} SmallGroup(v: nat, low: nat, place: nat)
    requires v < place <= 0x100_0000_0000_0000 && low < 128
    ensures (low * place) % TWO_64 == low * place && (v + low * place) % TWO_64 == v + low * place
  {
    assert low * place <= 127 * place;
  }

  /** Of the tenth group one bit is left. */
  lemma {:induction false} TopGroup(v: nat, low: nat)
    requires v < TWO_63
    ensures (low * TWO_63) % TWO_64 == (low % 2) * TWO_63
    ensures (v + low * TWO_63) % TWO_64 == v + (low % 2) * TWO_63
  {
    var q, bit := low / 2, low % 2;
    ModShift(bit * TWO_63, q);
    ModShift(v + bit * TWO_63, q);
  }

  lemma {:induction false} ValueBound(bs: seq<Byte>)
    ensures Value(bs) < Pow128(|bs|)
  {
    if bs != [] { ValueBound(bs[1..]); }
  }

  /** readVarint. */
  method ReadVarint(buf: seq<Byte>, off: nat) returns (v: nat, next: nat, ok: bool)
    requires off <= |buf|
    ensures VarintRead(buf, off, v, next, ok)
  {
    hide Value, Pow128, BitOr;
    v, next := 0, off;
    ghost var i := 0;
    NoGroups(buf, off);
    var shift: nat, place: nat := 0, 1;
    while true
      invariant 0 <= i < 10 && next == off + i <= |buf| && shift == 7 * i && place == Pow128(i)
      invariant v == Value(buf[off..next]) % TWO_64
      invariant forall k :: off <= k < next ==> buf[k] >= 128
      decreases 10 - i
    {
      if next >= |buf| {
        return 0, next, false;
      }
      var b := buf[next];
      var low: nat := b % 128;
      ReadSoFar(buf, off, next, v, low);
      NextGroup(buf, off, next, low);
      next := next + 1;
      v := BitOr(v, (low * place) % TWO_64);
      if b < 0x80 {
        return v, next, true;
      }
      shift, place := shift + 7, place * 128;
      i := i + 1;
      if shift > 63 {
        return 0, next, false;
      }
    }
  }

  lemma {:induction false} ReadSoFar(buf: seq<Byte>, off: nat, next: nat, v: nat, low: nat)
    requires off <= next <= |buf| && next - off < 10 && v == Value(buf[off..next]) % TWO_64 && low < 128
    ensures BitOr(v, (low * Pow128(next - off)) % TWO_64) == (v + low * Pow128(next - off)) % TWO_64
  {
    hide Value, Pow128, BitOr;
    ValueBound(buf[off..next]);
    PlacesGrow(next - off, 9);
    GroupPlaces();
    OrIsSum(v, low, next - off);
  }

  lemma {:induction false} NoGroups(buf: seq<Byte>, off: nat)
    requires off <= |buf|
    ensures Value(buf[off..off]) % TWO_64 == 0 && Pow128(0) == 1
  {
  }

  /** The next group goes on top of those read so far. */
  lemma {:induction false} NextGroup(buf: seq<Byte>, off: nat, next: nat, low: nat)
    requires off <= next < |buf| && low == buf[next] % 128
    ensures Pow128(next - off + 1) == 128 * Pow128(next - off)
    ensures (Value(buf[off..next]) % TWO_64 + low * Pow128(next - off)) % TWO_64 == Value(buf[off..next + 1]) % TWO_64
  {
    hide Value;
    assert buf[off..next + 1] == buf[off..next] + [buf[next]];
    ValueSnoc(buf[off..next], buf[next]);
    AddModulo(Value(buf[off..next]), low * Pow128(next - off));
  }

  lemma {:induction false} AddModulo(a: nat, b: nat)
    ensures (a % TWO_64 + b) % TWO_64 == (a + b) % TWO_64
  {
    var q := a / TWO_64;
    assert a + b == (a % TWO_64 + b) + TWO_64 * q;
    ModShift(a % TWO_64 + b, q);
  }

  lemma {:induction false} ModShift(a: nat, q: nat)
    ensures (a + TWO_64 * q) % TWO_64 == a % TWO_64
  {
    if q > 0 {
      ModShift(a, q - 1);
      assert a + TWO_64 * q == (a + TWO_64 * (q - 1)) + TWO_64;
    }
  }

  predicate At(buf: seq<Byte>, off: nat, bs: seq<Byte>) {
    off + |bs| <= |buf| && buf[off..off + |bs|] == bs
  }

  /** An encoded number is read back, whatever follows it. */
  lemma {:induction false} VarintReadsBack(buf: seq<Byte>, off: nat, n: nat, v: nat, next: nat, ok: bool)
    requires n < TWO_64 && At(buf, off, EncodeVarint(n)) && VarintRead(buf, off, v, next, ok)
    ensures ok && v == n && next == off + |EncodeVarint(n)|
  {
    hide EncodeVarint, Value;
    var bs := EncodeVarint(n);
    TenBytesHold64Bits(n);
    assert buf[off + |bs| - 1] == bs[|bs| - 1];
    assert forall i :: 0 <= i < |bs| ==> buf[off + i] == bs[i];
    assert ok;
    EndsNoLater(buf, off, next, off + |bs|);
    EndsNoLater(buf, off, off + |bs|, next);
  }

  /** The first byte below 128 ends a varint, so it has one end. */
  lemma {:induction false} EndsNoLater(buf: seq<Byte>, off: nat, x: nat, y: nat)
    requires off < x <= |buf| && off < y <= |buf| && IsVarint(buf[off..x]) && IsVarint(buf[off..y])
    ensures x <= y
  {
    assert buf[y - 1] == buf[off..y][y - off - 1];
    forall k | off <= k < x - 1 ensures buf[k] >= 128 {
      assert buf[k] == buf[off..x][k - off];
    }
  }

  // ----- length-delimited bodies -----

  /** int(n) on 64 bits. */
  function Int64(n: nat): int
    requires n < TWO_64
  {
    if n < TWO_63 then n else n - TWO_64
  }

  /** A 64-bit sum. */
  function Add64(a: int, b: int): int {
    if a + b >= TWO_63 then a + b - TWO_64 else if a + b < -TWO_63 then a + b + TWO_64 else a + b
  }

  /** The signed test after the wrapping sum is the unsigned length test. */
  lemma {:induction false} EndInBounds(next: nat, n: nat, size: nat)
    requires next <= size <= MAX_DAT_BYTES && n < TWO_64
    ensures var end := Add64(next, Int64(n));
        (next <= end <= size <==> n <= size - next) && (n <= size - next ==> end == next + n)
  {
  }

  /** A varint from off to start, and behind it the bytes up to end that it counts. */
  predicate Delimited(buf: seq<Byte>, off: nat, start: nat, end: nat) {
    && off < start <= end <= |buf| && start - off <= 10 && IsVarint(buf[off..start])
    && Value(buf[off..start]) % TWO_64 == end - start
  }

  /** Reading a length-delimited body gives the counted bytes, and fails exactly when there are none such. */
  ghost predicate BytesRead(buf: seq<Byte>, off: nat, bytes: seq<Byte>, end: nat, ok: bool) {
    if ok then exists start: nat :: Delimited(buf, off, start, end) && bytes == buf[start..end]
    else forall start: nat, stop: nat :: !Delimited(buf, off, start, stop)
  }

  method ReadBytesField(buf: seq<Byte>, off: nat) returns (bytes: seq<Byte>, end: nat, ok: bool)
    requires off <= |buf| <= MAX_DAT_BYTES
    ensures BytesRead(buf, off, bytes, end, ok)
  {
    hide Value;
    var n, next, good := ReadVarint(buf, off);
    if !good {
      forall start: nat, stop: nat ensures !Delimited(buf, off, start, stop) {
        NotDelimited(buf, off, start, stop, n, next, good);
      }
      return [], off, false;
    }
    EndInBounds(next, n, |buf|);
    var stop := Add64(next, Int64(n));
    if stop < next || stop > |buf| {
      forall start: nat, e: nat ensures !Delimited(buf, off, start, e) {
        NotDelimited(buf, off, start, e, n, next, good);
      }
      return [], off, false;
    }
    assert Delimited(buf, off, next, stop);
    return buf[next..stop], stop, true;
  }

  lemma {:induction false} NotDelimited(buf: seq<Byte>, off: nat, start: nat, stop: nat, n: nat, next: nat,
      read: bool)
    requires off <= |buf| && VarintRead(buf, off, n, next, read) && (read ==> n > |buf| - next)
    ensures !Delimited(buf, off, start, stop)
  {
    hide Value;
    if off < start <= |buf| && start - off <= 10 && IsVarint(buf[off..start]) {
      assert buf[start - 1] == buf[off..start][start - off - 1];
      if read {
        EndsNoLater(buf, off, start, next);
        EndsNoLater(buf, off, next, start);
      }
    }
  }

  // ----- records -----

  datatype Body =
    | Number(n: nat)
    | Wide(bytes8: seq<Byte>)
    | Raw(bytes: seq<Byte>)
    | Message(fields: seq<Field>)
    | Narrow(bytes4: seq<Byte>)

  datatype Field = Field(number: nat, body: Body)

  /** Field numbers as the format allows them, bodies as their wire type needs them. */
  predicate WellFormed(fs: seq<Field>) {
    forall i :: 0 <= i < |fs| ==> FieldOk(fs[i])
  }

  predicate FieldOk(f: Field) {
    && 1 <= f.number < 0x2000_0000
    && match f.body
       case Number(n) => n < TWO_64
       case Wide(bs) => |bs| == 8
       case Raw(_) => true
       case Message(fs) => WellFormed(fs)
       case Narrow(bs) => |bs| == 4
  }

  function Wire(b: Body): nat {
    match b
    case Number(_) => 0
    case Wide(_) => 1
    case Raw(_) => 2
    case Message(_) => 2
    case Narrow(_) => 5
  }

  function Payload(b: Body): seq<Byte> {
    match b
    case Raw(bs) => bs
    case Message(fs) => Encode(fs)
    case _ => []
  }

  function EncodeBody(b: Body): seq<Byte> {
    match b
    case Number(n) => EncodeVarint(n)
    case Wide(bs) => bs
    case Raw(bs) => EncodeVarint(|bs|) + bs
    case Message(fs) => EncodeVarint(|Encode(fs)|) + Encode(fs)
    case Narrow(bs) => bs
  }

  function EncodeField(f: Field): seq<Byte> { EncodeVarint(f.number * 8 + Wire(f.body)) + EncodeBody(f.body) }

  /** A message is its records one after the other. */
  function Encode(fs: seq<Field>): seq<Byte> {
    if fs == [] then [] else Encode(fs[..|fs| - 1]) + EncodeField(fs[|fs| - 1])
  }

  /** What a record is read as; fixed-width bodies are skipped. */
  datatype Record = Record(number: nat, wire: nat, n: nat, bytes: seq<Byte>)

  function RecordOf(f: Field): Record {
    Record(f.number, Wire(f.body), if f.body.Number? then f.body.n else 0, Payload(f.body))
  }

  /** skipField, on the wire types whose body the caller does not read. */
  method SkipField(buf: seq<Byte>, off: nat, wire: nat) returns (next: nat, ok: bool)
    requires off <= |buf| && wire != 0 && wire != 2
    ensures ok <==> (wire == 1 && off + 8 <= |buf|) || (wire == 5 && off + 4 <= |buf|)
    ensures ok ==> next == off + if wire == 1 then 8 else 4
  {
    if wire == 1 {
      if off + 8 > |buf| {
        return off, false;
      }
      return off + 8, true;
    }
    if wire == 5 {
      if off + 4 > |buf| {
        return off, false;
      }
      return off + 4, true;
    }
    return off, false;
  }

  /** At this place stands a tag, however padded, of a wire type that has no reader: groups, and types never defined. */
  ghost predicate Refused(buf: seq<Byte>, off: nat) {
    off <= |buf| && exists v: nat, next: nat :: VarintRead(buf, off, v, next, true) && v % 8 !in {0, 1, 2, 5}
  }

  /** A varint is read in one way. */
  lemma {:induction false} OneReading(buf: seq<Byte>, off: nat, v: nat, next: nat, w: nat, end: nat, ok: bool)
    requires off <= |buf| && VarintRead(buf, off, v, next, true) && VarintRead(buf, off, w, end, ok)
    ensures ok && v == w && next == end
  {
    hide Value;
    assert buf[next - 1] == buf[off..next][next - off - 1];
    EndsNoLater(buf, off, next, end);
    EndsNoLater(buf, off, end, next);
  }

  lemma {:induction false} RefusedTag(buf: seq<Byte>, off: nat, tag: nat, next: nat, ok: bool)
    requires off <= |buf| && VarintRead(buf, off, tag, next, ok)
    ensures Refused(buf, off) ==> off < |buf| && ok && tag % 8 !in {0, 1, 2, 5}
  {
    hide VarintRead;
    if Refused(buf, off) {
      var v: nat, end: nat :| VarintRead(buf, off, v, end, true) && v % 8 !in {0, 1, 2, 5};
      OneReading(buf, off, v, end, tag, next, ok);
      ReadIsInside(buf, off, tag, next);
    }
  }

  /** The start or end of a group is such a tag. */
  lemma {:induction false} GroupIsRefused(buf: seq<Byte>, off: nat, number: nat, wire: nat)
    requires (wire == 3 || wire == 4) && number < 0x2000_0000 && At(buf, off, EncodeVarint(number * 8 + wire))
    ensures Refused(buf, off)
  {
    hide EncodeVarint, Value, IsVarint;
    var tag := number * 8 + wire;
    var bs := EncodeVarint(tag);
    TenBytesHold64Bits(tag);
    VarintNotEmpty(bs);
    assert VarintRead(buf, off, tag, off + |bs|, true);
    assert tag % 8 == wire;
  }

  lemma {:induction false} ReadIsInside(buf: seq<Byte>, off: nat, v: nat, next: nat)
    requires off <= |buf| && VarintRead(buf, off, v, next, true)
    ensures off < |buf|
  {
  }

  /** One tag and its body, as every loop of the reader takes them. An encoded record is read as what it is. */
  method ReadRecord(buf: seq<Byte>, off: nat, ghost f: Field) returns (r: Record, after: nat, ok: bool)
    requires off <= |buf| <= MAX_DAT_BYTES
    ensures ok ==> off < after <= |buf| && |r.bytes| <= |buf|
    ensures Refused(buf, off) ==> !ok
    ensures FieldOk(f) && At(buf, off, EncodeField(f)) ==> ok && r == RecordOf(f) && after == off + |EncodeField(f)|
  {
    hide EncodeVarint, Value, IsVarint, EncodeBody, Payload, FieldOk, Refused;
    var tag, next, good := ReadVarint(buf, off);
    RefusedTag(buf, off, tag, next, good);
    ghost var encoded := FieldOk(f) && At(buf, off, EncodeField(f));
    if encoded {
      TagReadsBack(buf, off, f, tag, next, good);
    }
    if !good {
      return Record(0, 0, 0, []), off, false;
    }
    var number, wire := tag / 8, tag % 8;
    if wire == 0 {
      var n, end, read := ReadVarint(buf, next);
      if encoded { NumberReadsBack(buf, next, f, n, end, read); }
      return Record(number, wire, n, []), end, read;
    }
    if wire == 2 {
      var bytes, end, read := ReadBytesField(buf, next);
      assert read ==> end <= |buf| && next < end && |bytes| <= |buf|;
      if encoded { BytesReadBack(buf, next, f, bytes, end, read); }
      return Record(number, wire, 0, bytes), end, read;
    }
    var end, read := SkipField(buf, next, wire);
    if encoded { FixedSkipped(buf, next, f); }
    return Record(number, wire, 0, []), end, read;
  }

  lemma {:induction false} AtSplit(buf: seq<Byte>, off: nat, a: seq<Byte>, b: seq<Byte>)
    ensures At(buf, off, a + b) <==> At(buf, off, a) && At(buf, off + |a|, b)
  {
    if At(buf, off, a + b) {
      assert buf[off..off + |a|] == buf[off..off + |a + b|][..|a|];
      assert buf[off + |a|..off + |a + b|] == buf[off..off + |a + b|][|a|..];
    }
    if At(buf, off, a) && At(buf, off + |a|, b) {
      assert buf[off..off + |a + b|] == buf[off..off + |a|] + buf[off + |a|..off + |a| + |b|];
    }
  }

  lemma {:induction false} TagReadsBack(buf: seq<Byte>, off: nat, f: Field, tag: nat, next: nat, ok: bool)
    requires FieldOk(f) && At(buf, off, EncodeField(f)) && VarintRead(buf, off, tag, next, ok)
    ensures ok && tag / 8 == f.number && tag % 8 == Wire(f.body) && At(buf, next, EncodeBody(f.body))
    ensures next + |EncodeBody(f.body)| == off + |EncodeField(f)|
  {
    hide EncodeVarint, Value, IsVarint, EncodeBody, WellFormed, VarintRead;
    var t := f.number * 8 + Wire(f.body);
    AtSplit(buf, off, EncodeVarint(t), EncodeBody(f.body));
    VarintReadsBack(buf, off, t, tag, next, ok);
  }

  lemma {:induction false} NumberReadsBack(buf: seq<Byte>, off: nat, f: Field, n: nat, next: nat, ok: bool)
    requires FieldOk(f) && Wire(f.body) == 0 && At(buf, off, EncodeBody(f.body)) && VarintRead(buf, off, n, next, ok)
    ensures ok && f.body.Number? && n == f.body.n && next == off + |EncodeBody(f.body)| && Payload(f.body) == []
  {
    hide EncodeVarint, Value, IsVarint, VarintRead;
    VarintReadsBack(buf, off, f.body.n, n, next, ok);
  }

  lemma {:induction false} BytesReadBack(buf: seq<Byte>, off: nat, f: Field, bytes: seq<Byte>, end: nat, ok: bool)
    requires FieldOk(f) && Wire(f.body) == 2 && At(buf, off, EncodeBody(f.body)) && BytesRead(buf, off, bytes, end, ok)
    requires off <= |buf| <= MAX_DAT_BYTES
    ensures ok && bytes == Payload(f.body) && !f.body.Number? && end == off + |EncodeBody(f.body)|
  {
    hide EncodeVarint, Value, IsVarint, Encode;
    var p := Payload(f.body);
    var bs := EncodeVarint(|p|);
    var at := off + |bs|;
    assert EncodeBody(f.body) == bs + p;
    AtSplit(buf, off, bs, p);
    TenBytesHold64Bits(|p|);
    assert buf[off..at] == bs && |bs| > 0 by { VarintNotEmpty(bs); }
    assert Delimited(buf, off, at, at + |p|);
    var start: nat :| Delimited(buf, off, start, end) && bytes == buf[start..end];
    EndsNoLater(buf, off, start, at);
    EndsNoLater(buf, off, at, start);
  }

  lemma {:induction false} VarintNotEmpty(bs: seq<Byte>)
    requires IsVarint(bs)
    ensures bs != []
  {
  }

  lemma {:induction false} FixedSkipped(buf: seq<Byte>, off: nat, f: Field)
    requires FieldOk(f) && Wire(f.body) != 0 && Wire(f.body) != 2 && At(buf, off, EncodeBody(f.body))
    ensures Payload(f.body) == [] && !f.body.Number?
    ensures (Wire(f.body) == 1 && |EncodeBody(f.body)| == 8) || (Wire(f.body) == 5 && |EncodeBody(f.body)| == 4)
  {
    hide EncodeVarint;
  }

  // ----- walking a message -----

  /** The first i records are behind the cursor. */
  ghost predicate Walked(buf: seq<Byte>, fs: seq<Field>, i: nat, off: nat) {
    WellFormed(fs) && buf == Encode(fs) && i <= |fs| && off == |Encode(fs[..i])|
  }

  /** The same with more bytes behind the message. */
  ghost predicate WalkedIn(buf: seq<Byte>, fs: seq<Field>, i: nat, off: nat) {
    WellFormed(fs) && Encode(fs) <= buf && i <= |fs| && off == |Encode(fs[..i])|
  }

  lemma {:induction false} EncodePrefix(fs: seq<Field>, i: nat)
    requires i < |fs|
    ensures Encode(fs[..i + 1]) == Encode(fs[..i]) + EncodeField(fs[i])
    ensures |Encode(fs[..i + 1])| <= |Encode(fs)| && At(Encode(fs), |Encode(fs[..i])|, EncodeField(fs[i]))
    decreases |fs| - i
  {
    hide EncodeField;
    assert fs[..i + 1][..i] == fs[..i];
    if i + 1 == |fs| {
      assert fs[..i + 1] == fs;
    } else {
      var front := fs[..|fs| - 1];
      EncodePrefixOf(fs, i);
    }
  }

  /** What is behind the cursor is a prefix of the message. */
  lemma {:induction false} EncodePrefixOf(fs: seq<Field>, i: nat)
    requires i < |fs|
    ensures Encode(fs[..i + 1]) <= Encode(fs)
    ensures Encode(fs[..i + 1]) == Encode(fs[..i]) + EncodeField(fs[i])
    decreases |fs|
  {
    hide EncodeField;
    assert fs[..i + 1][..i] == fs[..i];
    if i + 1 == |fs| {
      assert fs[..i + 1] == fs;
    } else {
      var front := fs[..|fs| - 1];
      assert front[..i + 1] == fs[..i + 1] && front[i] == fs[i];
      EncodePrefixOf(front, i);
    }
  }

  lemma {:induction false} EncodedFieldLength(f: Field)
    ensures |EncodeField(f)| > 0
  {
    hide EncodeBody;
  }

  /** At the cursor stands the next record, if the message is not over. */
  lemma {:induction false} NextRecord(buf: seq<Byte>, fs: seq<Field>, i: nat, off: nat)
    requires Walked(buf, fs, i, off)
    ensures off <= |buf| && (off < |buf| <==> i < |fs|)
    ensures i < |fs| ==>
              && FieldOk(fs[i]) && At(buf, off, EncodeField(fs[i]))
              && Walked(buf, fs, i + 1, off + |EncodeField(fs[i])|)
  {
    hide EncodeField, FieldOk;
    if i < |fs| {
      EncodePrefix(fs, i);
      EncodedFieldLength(fs[i]);
    } else {
      assert fs[..i] == fs;
    }
  }

  lemma {:induction false} NextRecordIn(buf: seq<Byte>, fs: seq<Field>, i: nat, off: nat)
    requires WalkedIn(buf, fs, i, off)
    ensures off <= |Encode(fs)| && (i == |fs| ==> off == |Encode(fs)|)
    ensures i < |fs| ==>
              && FieldOk(fs[i]) && At(buf, off, EncodeField(fs[i]))
              && WalkedIn(buf, fs, i + 1, off + |EncodeField(fs[i])|)
  {
    hide EncodeField, FieldOk;
    var whole := Encode(fs);
    NextRecord(whole, fs, i, off);
    if i < |fs| {
      var n := off + |EncodeField(fs[i])|;
      assert buf[off..n] == whole[off..n];
    } else {
      assert fs[..i] == fs;
    }
  }

  function Unknown(): Field { Field(1, Number(0)) }

  function FieldOr(fs: seq<Field>, i: nat): Field { if i < |fs| then fs[i] else Unknown() }

  /** Where a walk starts. */
  lemma {:induction false} WalkStarts(buf: seq<Byte>, fs: seq<Field>)
    ensures WellFormed(fs) && buf == Encode(fs) ==> Walked(buf, fs, 0, 0)
  {
    assert fs[..0] == [];
  }

  lemma {:induction false} WalkStartsIn(buf: seq<Byte>, fs: seq<Field>)
    ensures WellFormed(fs) && Encode(fs) <= buf ==> WalkedIn(buf, fs, 0, 0)
  {
    assert fs[..0] == [];
  }

  lemma {:induction false} RefusedInside(buf: seq<Byte>, off: nat)
    requires Refused(buf, off)
    ensures off < |buf|
  {
    var v: nat, next: nat :| VarintRead(buf, off, v, next, true) && v % 8 !in {0, 1, 2, 5};
    ReadIsInside(buf, off, v, next);
  }

  // ----- what messages mean -----

  datatype RuleKind = Keyword | Suffix | Full | Cidr4 | Cidr6

  datatype GeoRule = DomainRule(kind: RuleKind, text: seq<Byte>) | CidrRule(kind: RuleKind, ip: seq<Byte>, prefix: nat)

  predicate Has(f: Field, number: nat, wire: nat) { f.number == number && Wire(f.body) == wire }

  /** The last occurrence counts. */
  function LastNumber(fs: seq<Field>, number: nat): nat {
    if fs == [] then 0
    else if Has(fs[|fs| - 1], number, 0) then RecordOf(fs[|fs| - 1]).n
    else LastNumber(fs[..|fs| - 1], number)
  }

  function LastBytes(fs: seq<Field>, number: nat): seq<Byte> {
    if fs == [] then []
    else if Has(fs[|fs| - 1], number, 2) then Payload(fs[|fs| - 1].body)
    else LastBytes(fs[..|fs| - 1], number)
  }

  datatype Domain = NoDomain | Skipped | Kept(rule: GeoRule)

  function DomainFrom(kind: nat, text: seq<Byte>): Domain {
    if text == [] then NoDomain
    else if kind == 0 then Kept(DomainRule(Keyword, text))
    else if kind == 2 then Kept(DomainRule(Suffix, text))
    else if kind == 3 then Kept(DomainRule(Full, text))
    else Skipped
  }

  function DomainMeaning(fs: seq<Field>): Domain { DomainFrom(LastNumber(fs, 1), LastBytes(fs, 2)) }

  /** parseDomain. */
  method ParseDomain(payload: seq<Byte>, ghost fs: seq<Field>) returns (d: Domain, ok: bool)
    requires |payload| <= MAX_DAT_BYTES
    ensures WellFormed(fs) && payload == Encode(fs) ==> ok && d == DomainMeaning(fs)
  {
    hide EncodeField, FieldOk, Encode, Payload;
    var kind: nat, text: seq<Byte> := 0, [];
    var off := 0;
    ghost var i := 0;
    ghost var encoded := WellFormed(fs) && payload == Encode(fs);
    WalkStarts(payload, fs);
    while off < |payload|
      invariant off <= |payload|
      invariant encoded ==> Walked(payload, fs, i, off)
      invariant encoded ==> kind == LastNumber(fs[..i], 1) && text == LastBytes(fs[..i], 2)
      decreases |payload| - off
    {
      if encoded { NextRecord(payload, fs, i, off); assert fs[..i + 1][..i] == fs[..i]; }
      var r, after, good := ReadRecord(payload, off, FieldOr(fs, i));
      if !good {
        return NoDomain, false;
      }
      if r.number == 1 && r.wire == 0 {
        kind := r.n;
      } else if r.number == 2 && r.wire == 2 {
        text := r.bytes;
      }
      off := after;
      i := i + 1;
    }
    if encoded { NextRecord(payload, fs, i, off); assert fs[..i] == fs; }
    return DomainFrom(kind, text), true;
  }

  /** The first field 1 of an entry names it. */
  function NameOf(fs: seq<Field>): seq<Byte> {
    if fs == [] then []
    else if Has(fs[0], 1, 2) then Payload(fs[0].body)
    else NameOf(fs[1..])
  }

  lemma {:induction false} NameAt(fs: seq<Field>, i: nat)
    requires i < |fs| && forall k :: 0 <= k < i ==> !Has(fs[k], 1, 2)
    ensures Has(fs[i], 1, 2) ==> NameOf(fs) == Payload(fs[i].body)
    ensures i == |fs| - 1 && !Has(fs[i], 1, 2) ==> NameOf(fs) == []
    decreases |fs|
  {
    hide Payload, Has;
    if i > 0 { NameAt(fs[1..], i - 1); }
  }

  /** entryName: it stops at the name, so nothing behind it is read here. */
  method EntryName(payload: seq<Byte>, ghost fs: seq<Field>) returns (name: seq<Byte>, ok: bool)
    requires |payload| <= MAX_DAT_BYTES
    ensures WellFormed(fs) && payload == Encode(fs) ==> ok && name == NameOf(fs)
  {
    hide EncodeField, FieldOk, Encode, Payload, NameOf;
    var off := 0;
    ghost var i := 0;
    ghost var encoded := WellFormed(fs) && payload == Encode(fs);
    WalkStarts(payload, fs);
    while off < |payload|
      invariant off <= |payload|
      invariant encoded ==> Walked(payload, fs, i, off) && forall k :: 0 <= k < i ==> !Has(fs[k], 1, 2)
      decreases |payload| - off
    {
      if encoded { NextRecord(payload, fs, i, off); NameAt(fs, i); }
      var r, after, good := ReadRecord(payload, off, FieldOr(fs, i));
      if !good {
        return [], false;
      }
      if r.number == 1 && r.wire == 2 {
        return r.bytes, true;
      }
      off := after;
      i := i + 1;
    }
    if encoded {
      NextRecord(payload, fs, i, off);
      if i > 0 { NameAt(fs, i - 1); } else { NoName(fs); }
    }
    return [], true;
  }

  lemma {:induction false} NoName(fs: seq<Field>)
    requires fs == []
    ensures NameOf(fs) == []
  {
  }

  // ----- a GeoSite list -----

  function FieldsOf(f: Field): seq<Field> { if f.body.Message? then f.body.fields else [] }

  lemma {:induction false} MessagePayload(f: Field)
    requires FieldOk(f) && f.body.Message?
    ensures Payload(f.body) == Encode(FieldsOf(f)) && WellFormed(FieldsOf(f))
  {
    hide Encode;
  }

  /** Every length-delimited field of that number is a message. */
  predicate Messages(fs: seq<Field>, number: nat) {
    forall i :: 0 <= i < |fs| && Has(fs[i], number, 2) ==> fs[i].body.Message?
  }

  function KeptFrom(d: Domain): seq<GeoRule> { if d.Kept? then [d.rule] else [] }

  /** The rules of an entry, in order, and how many records were left out. */
  function SiteRules(fs: seq<Field>): seq<GeoRule> {
    if fs == [] then []
    else
      var f := fs[|fs| - 1];
      SiteRules(fs[..|fs| - 1]) + if Has(f, 2, 2) then KeptFrom(DomainMeaning(FieldsOf(f))) else []
  }

  function SiteSkips(fs: seq<Field>): nat {
    if fs == [] then 0
    else
      var f := fs[|fs| - 1];
      SiteSkips(fs[..|fs| - 1]) + if Has(f, 2, 2) && DomainMeaning(FieldsOf(f)).Skipped? then 1 else 0
  }

  method SiteEntry(payload: seq<Byte>, ghost fs: seq<Field>) returns (out: seq<GeoRule>, skipped: nat, ok: bool)
    requires |payload| <= MAX_DAT_BYTES
    ensures WellFormed(fs) && Messages(fs, 2) && payload == Encode(fs) ==>
        ok && out == SiteRules(fs) && skipped == SiteSkips(fs)
  {
    hide EncodeField, FieldOk, Encode, Payload, DomainMeaning;
    out, skipped := [], 0;
    var off := 0;
    ghost var i := 0;
    ghost var encoded := WellFormed(fs) && Messages(fs, 2) && payload == Encode(fs);
    WalkStarts(payload, fs);
    while off < |payload|
      invariant off <= |payload|
      invariant encoded ==> Walked(payload, fs, i, off) && out == SiteRules(fs[..i]) && skipped == SiteSkips(fs[..i])
      decreases |payload| - off
    {
      if encoded {
        NextRecord(payload, fs, i, off);
        assert fs[..i + 1][..i] == fs[..i];
      }
      var r, after, good := ReadRecord(payload, off, FieldOr(fs, i));
      if !good {
        return [], skipped, false;
      }
      if r.number == 2 && r.wire == 2 {
        if encoded { MessagePayload(fs[i]); }
        var d, read := ParseDomain(r.bytes, FieldsOf(FieldOr(fs, i)));
        if !read {
          return [], skipped, false;
        }
        if d.Skipped? {
          skipped := skipped + 1;
        } else if d.Kept? {
          out := out + [d.rule];
        }
      }
      off := after;
      i := i + 1;
    }
    if encoded { NextRecord(payload, fs, i, off); assert fs[..i] == fs; }
    return out, skipped, true;
  }

  /** strings.ToLower, on the ASCII names these files use. */
  function LowerBytes(bs: seq<Byte>): seq<Byte> {
    if bs == [] then [] else [if 65 <= bs[0] <= 90 then bs[0] + 32 else bs[0]] + LowerBytes(bs[1..])
  }

  datatype Found = Found(rules: seq<GeoRule>, skipped: nat, any: bool)

  /** The entry is one of those asked for. */
  predicate Wanted(f: Field, want: seq<Byte>) { Has(f, 1, 2) && LowerBytes(NameOf(FieldsOf(f))) == want }

  /** The rules of every entry of that name, in file order. */
  function SiteMeaning(fs: seq<Field>, want: seq<Byte>): Found {
    if fs == [] then Found([], 0, false)
    else
      var was, f := SiteMeaning(fs[..|fs| - 1], want), fs[|fs| - 1];
      if !Wanted(f, want) then was
      else Found(was.rules + SiteRules(FieldsOf(f)), was.skipped + SiteSkips(FieldsOf(f)), true)
  }

  /** A list of entries, each a message whose number-numbered records are messages. */
  predicate ListShape(fs: seq<Field>) {
    WellFormed(fs) && Messages(fs, 1) && forall i :: 0 <= i < |fs| && Has(fs[i], 1, 2) ==> Messages(FieldsOf(fs[i]), 2)
  }

  datatype Extraction = Rules(rules: seq<GeoRule>, skipped: nat) | NotFound | EmptyName | Malformed

  /** What extraction gives for a list. */
  function SiteAnswer(fs: seq<Field>, want: seq<Byte>): Extraction {
    var m := SiteMeaning(fs, want);
    if m.any then Rules(m.rules, m.skipped) else NotFound
  }

  /** ExtractGeoSiteRules on the bytes of a file, for a trimmed and lowered name. */
  method ExtractGeoSiteRules(buf: seq<Byte>, want: seq<Byte>, ghost fs: seq<Field>) returns (result: Extraction)
    requires |buf| <= MAX_DAT_BYTES
    ensures want == [] ==> result == EmptyName
    ensures want != [] && ListShape(fs) && buf == Encode(fs) ==> result == SiteAnswer(fs, want)
    ensures want != [] && ListShape(fs) && Encode(fs) <= buf && Refused(buf, |Encode(fs)|) ==> result == Malformed
  {
    hide Refused, EncodeField, FieldOk, Encode, Payload, SiteRules, SiteSkips, NameOf, LowerBytes;
    if want == [] {
      return EmptyName;
    }
    var out: seq<GeoRule>, skipped, found := [], 0, false;
    var off := 0;
    ghost var i := 0;
    ghost var encoded := ListShape(fs) && buf == Encode(fs);
    ghost var refused := ListShape(fs) && Encode(fs) <= buf && Refused(buf, |Encode(fs)|);
    WalkStarts(buf, fs);
    if refused { WalkStartsIn(buf, fs); }
    while off < |buf|
      invariant off <= |buf|
      invariant encoded ==> Walked(buf, fs, i, off) && SiteMeaning(fs[..i], want) == Found(out, skipped, found)
      invariant refused ==> WalkedIn(buf, fs, i, off)
      decreases |buf| - off
    {
      if encoded { NextRecord(buf, fs, i, off); assert fs[..i + 1][..i] == fs[..i]; }
      if refused { NextRecordIn(buf, fs, i, off); }
      var r, after, good := ReadRecord(buf, off, FieldOr(fs, i));
      if !good {
        return Malformed;
      }
      if r.number == 1 && r.wire == 2 {
        if encoded || refused { MessagePayload(fs[i]); }
        ghost var inner := FieldsOf(FieldOr(fs, i));
        var name, named := EntryName(r.bytes, inner);
        if !named {
          return Malformed;
        }
        if LowerBytes(name) == want {
          found := true;
          var more, skips, read := SiteEntry(r.bytes, inner);
          if !read {
            return Malformed;
          }
          out, skipped := out + more, skipped + skips;
        }
      }
      off := after;
      i := i + 1;
    }
    if encoded { NextRecord(buf, fs, i, off); assert fs[..i] == fs; }
    if refused { NextRecordIn(buf, fs, i, off); RefusedInside(buf, |Encode(fs)|); }
    return if found then Rules(out, skipped) else NotFound;
  }

  // ----- a GeoIP list -----

  datatype Cidr = NoCidr | BadCidr | Network(rule: GeoRule)

  function CidrFrom(ip: seq<Byte>, prefix: nat): Cidr {
    if ip == [] then NoCidr
    else if |ip| == 4 then Network(CidrRule(Cidr4, ip, prefix))
    else if |ip| == 16 then Network(CidrRule(Cidr6, ip, prefix))
    else BadCidr
  }

  function CidrMeaning(fs: seq<Field>): Cidr { CidrFrom(LastBytes(fs, 1), LastNumber(fs, 2)) }

  /** parseCIDR. */
  method ParseCIDR(payload: seq<Byte>, ghost fs: seq<Field>) returns (d: Cidr, ok: bool)
    requires |payload| <= MAX_DAT_BYTES
    ensures WellFormed(fs) && payload == Encode(fs) ==> ok && d == CidrMeaning(fs)
  {
    hide EncodeField, FieldOk, Encode, Payload;
    var ip: seq<Byte>, prefix: nat := [], 0;
    var off := 0;
    ghost var i := 0;
    ghost var encoded := WellFormed(fs) && payload == Encode(fs);
    WalkStarts(payload, fs);
    while off < |payload|
      invariant off <= |payload|
      invariant encoded ==> Walked(payload, fs, i, off)
      invariant encoded ==> ip == LastBytes(fs[..i], 1) && prefix == LastNumber(fs[..i], 2)
      decreases |payload| - off
    {
      if encoded { NextRecord(payload, fs, i, off); assert fs[..i + 1][..i] == fs[..i]; }
      var r, after, good := ReadRecord(payload, off, FieldOr(fs, i));
      if !good {
        return NoCidr, false;
      }
      if r.number == 1 && r.wire == 2 {
        ip := r.bytes;
      } else if r.number == 2 && r.wire == 0 {
        prefix := r.n;
      }
      off := after;
      i := i + 1;
    }
    if encoded { NextRecord(payload, fs, i, off); assert fs[..i] == fs; }
    return CidrFrom(ip, prefix), true;
  }

  function NetworkFrom(d: Cidr): seq<GeoRule> { if d.Network? then [d.rule] else [] }

  function IpRules(fs: seq<Field>): seq<GeoRule> {
    if fs == [] then []
    else
      var f := fs[|fs| - 1];
      IpRules(fs[..|fs| - 1]) + if Has(f, 2, 2) then NetworkFrom(CidrMeaning(FieldsOf(f))) else []
  }

  /** Every network of the entry has an address of four or sixteen bytes, or none. */
  predicate GoodNetworks(fs: seq<Field>) {
    forall i :: 0 <= i < |fs| && Has(fs[i], 2, 2) ==> !CidrMeaning(FieldsOf(fs[i])).BadCidr?
  }

  method IpEntry(payload: seq<Byte>, ghost fs: seq<Field>) returns (out: seq<GeoRule>, ok: bool)
    requires |payload| <= MAX_DAT_BYTES
    ensures WellFormed(fs) && Messages(fs, 2) && payload == Encode(fs) ==>
              (ok <==> GoodNetworks(fs)) && (ok ==> out == IpRules(fs))
  {
    hide EncodeField, FieldOk, Encode, Payload, CidrMeaning;
    out := [];
    var off := 0;
    ghost var i := 0;
    ghost var encoded := WellFormed(fs) && Messages(fs, 2) && payload == Encode(fs);
    WalkStarts(payload, fs);
    while off < |payload|
      invariant off <= |payload|
      invariant encoded ==> Walked(payload, fs, i, off) && out == IpRules(fs[..i])
      invariant encoded ==> forall k :: 0 <= k < i && Has(fs[k], 2, 2) ==> !CidrMeaning(FieldsOf(fs[k])).BadCidr?
      decreases |payload| - off
    {
      if encoded { NextRecord(payload, fs, i, off); assert fs[..i + 1][..i] == fs[..i]; }
      var r, after, good := ReadRecord(payload, off, FieldOr(fs, i));
      if !good {
        return [], false;
      }
      if r.number == 2 && r.wire == 2 {
        if encoded { MessagePayload(fs[i]); }
        var d, read := ParseCIDR(r.bytes, FieldsOf(FieldOr(fs, i)));
        if !read || d.BadCidr? {
          return [], false;
        }
        if d.Network? {
          out := out + [d.rule];
        }
      }
      off := after;
      i := i + 1;
    }
    if encoded { NextRecord(payload, fs, i, off); assert fs[..i] == fs; }
    return out, true;
  }

  datatype Networks = Networks(rules: seq<GeoRule>, any: bool)

  function IpMeaning(fs: seq<Field>, want: seq<Byte>): Networks {
    if fs == [] then Networks([], false)
    else
      var was, f := IpMeaning(fs[..|fs| - 1], want), fs[|fs| - 1];
      if Wanted(f, want) then Networks(was.rules + IpRules(FieldsOf(f)), true) else was
  }

  predicate WantedNetworksGood(fs: seq<Field>, want: seq<Byte>) {
    forall i :: 0 <= i < |fs| && Wanted(fs[i], want) ==> GoodNetworks(FieldsOf(fs[i]))
  }

  /** What extraction gives for a list of networks. */
  function IpAnswer(fs: seq<Field>, want: seq<Byte>): Extraction {
    var m := IpMeaning(fs, want);
    if !WantedNetworksGood(fs, want) then Malformed else if m.any then Rules(m.rules, 0) else NotFound
  }

  /** ExtractGeoIPRules; an address of another length in a wanted entry is the one refusal left. */
  method ExtractGeoIPRules(buf: seq<Byte>, want: seq<Byte>, ghost fs: seq<Field>) returns (result: Extraction)
    requires |buf| <= MAX_DAT_BYTES
    ensures want == [] ==> result == EmptyName
    ensures want != [] && ListShape(fs) && buf == Encode(fs) ==> result == IpAnswer(fs, want)
    ensures want != [] && ListShape(fs) && Encode(fs) <= buf && Refused(buf, |Encode(fs)|) ==> result == Malformed
  {
    hide Refused, EncodeField, FieldOk, Encode, Payload, IpRules, NameOf, LowerBytes, GoodNetworks;
    if want == [] {
      return EmptyName;
    }
    var out: seq<GeoRule>, found := [], false;
    var off := 0;
    ghost var i := 0;
    ghost var encoded := ListShape(fs) && buf == Encode(fs);
    ghost var refused := ListShape(fs) && Encode(fs) <= buf && Refused(buf, |Encode(fs)|);
    WalkStarts(buf, fs);
    if refused { WalkStartsIn(buf, fs); }
    while off < |buf|
      invariant off <= |buf|
      invariant encoded ==> Walked(buf, fs, i, off) && IpMeaning(fs[..i], want) == Networks(out, found)
      invariant encoded ==> forall k :: 0 <= k < i && Wanted(fs[k], want) ==> GoodNetworks(FieldsOf(fs[k]))
      invariant refused ==> WalkedIn(buf, fs, i, off)
      decreases |buf| - off
    {
      if encoded { NextRecord(buf, fs, i, off); assert fs[..i + 1][..i] == fs[..i]; }
      if refused { NextRecordIn(buf, fs, i, off); }
      var r, after, good := ReadRecord(buf, off, FieldOr(fs, i));
      if !good {
        return Malformed;
      }
      if r.number == 1 && r.wire == 2 {
        if encoded || refused { MessagePayload(fs[i]); }
        ghost var inner := FieldsOf(FieldOr(fs, i));
        var name, named := EntryName(r.bytes, inner);
        if !named {
          return Malformed;
        }
        if LowerBytes(name) == want {
          found := true;
          var more, read := IpEntry(r.bytes, inner);
          if !read {
            return Malformed;
          }
          out := out + more;
        }
      }
      off := after;
      i := i + 1;
    }
    if encoded { NextRecord(buf, fs, i, off); assert fs[..i] == fs; }
    if refused { NextRecordIn(buf, fs, i, off); RefusedInside(buf, |Encode(fs)|); }
    return if found then Rules(out, 0) else NotFound;
  }

  // ----- unknown fields -----

  function Insert(fs: seq<Field>, i: nat, u: Field): seq<Field>
    requires i <= |fs|
  {
    fs[..i] + [u] + fs[i..]
  }

  lemma {:induction false} InsertSnoc(fs: seq<Field>, i: nat, u: Field)
    requires i <= |fs|
    ensures i < |fs| ==>
              Insert(fs, i, u)[..|fs|] == Insert(fs[..|fs| - 1], i, u) && Insert(fs, i, u)[|fs|] == fs[|fs| - 1]
    ensures i == |fs| ==> Insert(fs, i, u)[..|fs|] == fs && Insert(fs, i, u)[|fs|] == u
  {
  }

  lemma {:induction false} DomainIgnores(fs: seq<Field>, i: nat, u: Field, number: nat)
    requires i <= |fs|
    ensures !Has(u, number, 0) ==> LastNumber(Insert(fs, i, u), number) == LastNumber(fs, number)
    ensures !Has(u, number, 2) ==> LastBytes(Insert(fs, i, u), number) == LastBytes(fs, number)
  {
    hide Has, Payload, Insert;
    InsertSnoc(fs, i, u);
    InsertLength(fs, i, u);
    if i < |fs| {
      DomainIgnores(fs[..|fs| - 1], i, u, number);
    }
  }

  lemma {:induction false} InsertLength(fs: seq<Field>, i: nat, u: Field)
    requires i <= |fs|
    ensures |Insert(fs, i, u)| == |fs| + 1
  {
  }

  /** A domain record with an unknown field in it means the same, and so does a network. */
  lemma {:induction false} RecordsIgnoreUnknown(fs: seq<Field>, i: nat, u: Field)
    requires i <= |fs|
    ensures !Has(u, 1, 0) && !Has(u, 2, 2) ==> DomainMeaning(Insert(fs, i, u)) == DomainMeaning(fs)
    ensures !Has(u, 1, 2) && !Has(u, 2, 0) ==> CidrMeaning(Insert(fs, i, u)) == CidrMeaning(fs)
  {
    hide Has, Insert, DomainFrom, CidrFrom;
    DomainIgnores(fs, i, u, 1);
    DomainIgnores(fs, i, u, 2);
  }

  lemma {:induction false} NameIgnores(fs: seq<Field>, i: nat, u: Field)
    requires i <= |fs| && !Has(u, 1, 2)
    ensures NameOf(Insert(fs, i, u)) == NameOf(fs)
  {
    hide Has, Payload;
    if i == 0 {
      assert Insert(fs, 0, u)[1..] == fs;
    } else {
      assert Insert(fs, i, u)[1..] == Insert(fs[1..], i - 1, u) && Insert(fs, i, u)[0] == fs[0];
      NameIgnores(fs[1..], i - 1, u);
    }
  }

  /** So does an entry. */
  lemma {:induction false} EntriesIgnoreUnknown(fs: seq<Field>, i: nat, u: Field)
    requires i <= |fs| && !Has(u, 1, 2) && !Has(u, 2, 2)
    ensures NameOf(Insert(fs, i, u)) == NameOf(fs)
    ensures SiteRules(Insert(fs, i, u)) == SiteRules(fs) && SiteSkips(Insert(fs, i, u)) == SiteSkips(fs)
    ensures IpRules(Insert(fs, i, u)) == IpRules(fs)
    ensures GoodNetworks(Insert(fs, i, u)) <==> GoodNetworks(fs)
    ensures Messages(Insert(fs, i, u), 2) <==> Messages(fs, 2)
  {
    hide Has, Insert, DomainMeaning, CidrMeaning, NameOf, GoodNetworks, Messages;
    GoodIgnores(fs, i, u);
    NameIgnores(fs, i, u);
    InsertSnoc(fs, i, u);
    InsertLength(fs, i, u);
    if i < |fs| {
      EntriesIgnoreUnknown(fs[..|fs| - 1], i, u);
    }
  }

  /** And so does a list. */
  lemma {:induction false} ListsIgnoreUnknown(fs: seq<Field>, i: nat, u: Field, want: seq<Byte>)
    requires i <= |fs| && !Has(u, 1, 2)
    ensures SiteMeaning(Insert(fs, i, u), want) == SiteMeaning(fs, want)
    ensures IpMeaning(Insert(fs, i, u), want) == IpMeaning(fs, want)
  {
    hide Has, Insert, SiteRules, SiteSkips, IpRules, NameOf, LowerBytes;
    InsertSnoc(fs, i, u);
    InsertLength(fs, i, u);
    if i < |fs| {
      ListsIgnoreUnknown(fs[..|fs| - 1], i, u, want);
    }
  }

  /** Where the fields of a longer message come from. */
  lemma {:induction false} InsertFields(fs: seq<Field>, i: nat, u: Field)
    requires i <= |fs|
    ensures |Insert(fs, i, u)| == |fs| + 1 && Insert(fs, i, u)[i] == u
    ensures forall k :: 0 <= k < i ==> Insert(fs, i, u)[k] == fs[k]
    ensures forall k :: i < k <= |fs| ==> Insert(fs, i, u)[k] == fs[k - 1]
    ensures forall k :: i <= k < |fs| ==> fs[k] == Insert(fs, i, u)[k + 1]
  {
  }

  lemma {:induction false} GoodIgnores(fs: seq<Field>, i: nat, u: Field)
    requires i <= |fs| && !Has(u, 2, 2)
    ensures GoodNetworks(Insert(fs, i, u)) <==> GoodNetworks(fs)
    ensures Messages(Insert(fs, i, u), 2) <==> Messages(fs, 2)
  {
    hide Has, Insert, CidrMeaning;
    InsertFields(fs, i, u);
  }

  /** A list stays a list, and refuses the same networks. */
  lemma {:induction false} ShapeIgnores(fs: seq<Field>, i: nat, u: Field, want: seq<Byte>)
    requires i <= |fs| && !Has(u, 1, 2) && FieldOk(u)
    ensures ListShape(Insert(fs, i, u)) <==> ListShape(fs)
    ensures WantedNetworksGood(Insert(fs, i, u), want) <==> WantedNetworksGood(fs, want)
  {
    hide Has, Insert, FieldOk, GoodNetworks, FieldsOf, NameOf, LowerBytes;
    InsertFields(fs, i, u);
  }

  /** So both extractions give the same from a list with an unknown field in it. */
  lemma {:induction false} AnswersIgnoreUnknown(fs: seq<Field>, i: nat, u: Field, want: seq<Byte>)
    requires i <= |fs| && !Has(u, 1, 2) && FieldOk(u)
    ensures ListShape(Insert(fs, i, u)) <==> ListShape(fs)
    ensures SiteAnswer(Insert(fs, i, u), want) == SiteAnswer(fs, want)
    ensures IpAnswer(Insert(fs, i, u), want) == IpAnswer(fs, want)
  {
    hide Has, Insert, FieldOk, SiteMeaning, IpMeaning, WantedNetworksGood, ListShape;
    ListsIgnoreUnknown(fs, i, u, want);
    ShapeIgnores(fs, i, u, want);
  }

  // ----- unknown fields further in -----

  /** Two entries that no reader can tell apart. */
  predicate SameEntry(a: seq<Field>, b: seq<Field>) {
    && NameOf(a) == NameOf(b)
    && SiteRules(a) == SiteRules(b) && SiteSkips(a) == SiteSkips(b) && IpRules(a) == IpRules(b)
    && (GoodNetworks(a) <==> GoodNetworks(b)) && (Messages(a, 2) <==> Messages(b, 2))
  }

  lemma {:induction false} SwapSnoc(fs: seq<Field>, k: nat, g: Field)
    requires k < |fs|
    ensures |fs[k := g]| == |fs|
    ensures k == |fs| - 1 ==> fs[k := g][..|fs| - 1] == fs[..|fs| - 1] && fs[k := g][|fs| - 1] == g
    ensures k < |fs| - 1 ==>
              fs[k := g][..|fs| - 1] == fs[..|fs| - 1][k := g] && fs[k := g][|fs| - 1] == fs[|fs| - 1]
  {
  }

  lemma {:induction false} NameSwapped(fs: seq<Field>, k: nat, g: Field)
    requires k < |fs| && !Has(fs[k], 1, 2) && !Has(g, 1, 2)
    ensures NameOf(fs[k := g]) == NameOf(fs)
  {
    hide Has, Payload;
    if k == 0 {
      assert fs[0 := g][1..] == fs[1..];
    } else {
      assert fs[k := g][1..] == fs[1..][k - 1 := g] && fs[k := g][0] == fs[0];
      NameSwapped(fs[1..], k - 1, g);
    }
  }

  lemma {:induction false} RulesSwapped(fs: seq<Field>, k: nat, g: Field)
    requires k < |fs| && Has(fs[k], 2, 2) && Has(g, 2, 2)
    requires DomainMeaning(FieldsOf(g)) == DomainMeaning(FieldsOf(fs[k]))
    requires CidrMeaning(FieldsOf(g)) == CidrMeaning(FieldsOf(fs[k]))
    ensures SiteRules(fs[k := g]) == SiteRules(fs) && SiteSkips(fs[k := g]) == SiteSkips(fs)
    ensures IpRules(fs[k := g]) == IpRules(fs)
  {
    hide Has, FieldsOf, DomainMeaning, CidrMeaning;
    SwapSnoc(fs, k, g);
    if k < |fs| - 1 { RulesSwapped(fs[..|fs| - 1], k, g); }
  }

  lemma {:induction false} GoodSwapped(fs: seq<Field>, k: nat, g: Field)
    requires k < |fs| && Has(fs[k], 2, 2) && Has(g, 2, 2) && fs[k].body.Message? && g.body.Message?
    requires CidrMeaning(FieldsOf(g)) == CidrMeaning(FieldsOf(fs[k]))
    ensures GoodNetworks(fs[k := g]) <==> GoodNetworks(fs)
    ensures Messages(fs[k := g], 2) <==> Messages(fs, 2)
  {
    hide Has, FieldsOf, CidrMeaning;
    var all := fs[k := g];
    assert all[k] == g && forall m :: 0 <= m < |fs| && m != k ==> all[m] == fs[m];
  }

  lemma {:induction false} ShapeSwapped(fs: seq<Field>, j: nat, g: Field, want: seq<Byte>)
    requires j < |fs| && Has(fs[j], 1, 2) && Has(g, 1, 2) && fs[j].body.Message? && g.body.Message? && FieldOk(g)
    requires SameEntry(FieldsOf(g), FieldsOf(fs[j]))
    ensures ListShape(fs) ==> ListShape(fs[j := g])
    ensures WantedNetworksGood(fs[j := g], want) <==> WantedNetworksGood(fs, want)
  {
    hide Has, FieldsOf, FieldOk, NameOf, SiteRules, SiteSkips, IpRules, GoodNetworks, LowerBytes;
    var all := fs[j := g];
    assert Wanted(g, want) <==> Wanted(fs[j], want);
    assert all[j] == g && forall m :: 0 <= m < |fs| && m != j ==> all[m] == fs[m];
  }

  /** A domain or network record of the same meaning leaves the entry as it was. */
  lemma {:induction false} RecordSwapped(fs: seq<Field>, k: nat, record: seq<Field>)
    requires k < |fs| && fs[k].number == 2 && fs[k].body.Message?
    requires DomainMeaning(record) == DomainMeaning(FieldsOf(fs[k]))
    requires CidrMeaning(record) == CidrMeaning(FieldsOf(fs[k]))
    ensures SameEntry(fs[k := Field(2, Message(record))], fs)
  {
    hide DomainMeaning, CidrMeaning, NameOf, SiteRules, SiteSkips, IpRules, GoodNetworks, Messages;
    var g := Field(2, Message(record));
    NameSwapped(fs, k, g);
    RulesSwapped(fs, k, g);
    GoodSwapped(fs, k, g);
  }

  lemma {:induction false} ListSwapped(fs: seq<Field>, j: nat, g: Field, want: seq<Byte>)
    requires j < |fs| && Has(fs[j], 1, 2) && Has(g, 1, 2) && SameEntry(FieldsOf(g), FieldsOf(fs[j]))
    ensures SiteMeaning(fs[j := g], want) == SiteMeaning(fs, want)
    ensures IpMeaning(fs[j := g], want) == IpMeaning(fs, want)
  {
    hide Has, FieldsOf, NameOf, SiteRules, SiteSkips, IpRules, GoodNetworks, Messages, LowerBytes;
    SwapSnoc(fs, j, g);
    if j < |fs| - 1 { ListSwapped(fs[..|fs| - 1], j, g, want); }
  }

  /** An entry that no reader can tell apart leaves both extractions as they were. */
  lemma {:induction false} EntrySwapped(fs: seq<Field>, j: nat, entry: seq<Field>, want: seq<Byte>)
    requires j < |fs| && fs[j].number == 1 && fs[j].body.Message?
    requires SameEntry(entry, FieldsOf(fs[j])) && WellFormed(entry)
    ensures var swapped := fs[j := Field(1, Message(entry))];
      && (ListShape(fs) ==> ListShape(swapped))
      && SiteAnswer(swapped, want) == SiteAnswer(fs, want) && IpAnswer(swapped, want) == IpAnswer(fs, want)
  {
    hide SameEntry, SiteMeaning, IpMeaning, WantedNetworksGood, ListShape;
    var g := Field(1, Message(entry));
    ListSwapped(fs, j, g, want);
    ShapeSwapped(fs, j, g, want);
  }

  /** An unknown field in an entry of a list changes neither extraction. */
  lemma {:induction false} InEntryIgnored(fs: seq<Field>, j: nat, i: nat, u: Field, want: seq<Byte>)
    requires ListShape(fs) && j < |fs| && fs[j].number == 1 && fs[j].body.Message? && i <= |FieldsOf(fs[j])|
    requires FieldOk(u) && !Has(u, 1, 2) && !Has(u, 2, 2)
    ensures var longer := fs[j := Field(1, Message(Insert(FieldsOf(fs[j]), i, u)))];
      && ListShape(longer)
      && SiteAnswer(longer, want) == SiteAnswer(fs, want) && IpAnswer(longer, want) == IpAnswer(fs, want)
  {
    hide SiteRules, SiteSkips, IpRules, GoodNetworks, Has, SiteAnswer, IpAnswer, NameOf, ListShape, Insert;
    EntryWellFormed(fs, j);
    InsertWellFormed(FieldsOf(fs[j]), i, u);
    EntriesIgnoreUnknown(FieldsOf(fs[j]), i, u);
    EntrySwapped(fs, j, Insert(FieldsOf(fs[j]), i, u), want);
  }

  /** Nor does one in a domain or network record of an entry. */
  lemma {:induction false} InRecordIgnored(fs: seq<Field>, j: nat, k: nat, i: nat, u: Field, want: seq<Byte>)
    requires ListShape(fs) && j < |fs| && fs[j].number == 1 && fs[j].body.Message?
    requires k < |FieldsOf(fs[j])| && FieldsOf(fs[j])[k].number == 2 && FieldsOf(fs[j])[k].body.Message?
    requires i <= |FieldsOf(FieldsOf(fs[j])[k])| && FieldOk(u)
    requires !Has(u, 1, 0) && !Has(u, 1, 2) && !Has(u, 2, 0) && !Has(u, 2, 2)
    ensures var record := Insert(FieldsOf(FieldsOf(fs[j])[k]), i, u);
      var longer := fs[j := Field(1, Message(FieldsOf(fs[j])[k := Field(2, Message(record))]))];
      && ListShape(longer)
      && SiteAnswer(longer, want) == SiteAnswer(fs, want) && IpAnswer(longer, want) == IpAnswer(fs, want)
  {
    hide SameEntry, DomainMeaning, CidrMeaning, Has, SiteAnswer, IpAnswer, ListShape, Insert;
    var entry := FieldsOf(fs[j]);
    var record := FieldsOf(entry[k]);
    EntryWellFormed(fs, j);
    RecordsIgnoreUnknown(record, i, u);
    InsertWellFormed(record, i, u);
    RecordSwapped(entry, k, Insert(record, i, u));
    EntrySwapped(fs, j, entry[k := Field(2, Message(Insert(record, i, u)))], want);
  }

  lemma {:induction false} EntryWellFormed(fs: seq<Field>, j: nat)
    requires ListShape(fs) && j < |fs| && fs[j].body.Message?
    ensures WellFormed(FieldsOf(fs[j]))
  {
    assert FieldOk(fs[j]);
  }

  lemma {:induction false} InsertWellFormed(fs: seq<Field>, i: nat, u: Field)
    requires i <= |fs| && WellFormed(fs) && FieldOk(u)
    ensures WellFormed(Insert(fs, i, u))
  {
    hide FieldOk, Insert;
    InsertFields(fs, i, u);
  }

  // ----- the messages that the format's authors write -----

  datatype SiteDomain = SiteDomain(kind: nat, text: seq<Byte>)

  datatype Site = Site(name: seq<Byte>, domains: seq<SiteDomain>)

  function DomainFields(d: SiteDomain): seq<Field> { [Field(1, Number(d.kind)), Field(2, Raw(d.text))] }

  function DomainRecords(ds: seq<SiteDomain>): seq<Field> {
    if ds == [] then [] else DomainRecords(ds[..|ds| - 1]) + [Field(2, Message(DomainFields(ds[|ds| - 1])))]
  }

  function SiteFields(e: Site): seq<Field> { [Field(1, Raw(e.name))] + DomainRecords(e.domains) }

  function ListFields(es: seq<Site>): seq<Field> {
    if es == [] then [] else ListFields(es[..|es| - 1]) + [Field(1, Message(SiteFields(es[|es| - 1])))]
  }

  function DomainRules(ds: seq<SiteDomain>): seq<GeoRule> {
    if ds == [] then []
    else DomainRules(ds[..|ds| - 1]) + KeptFrom(DomainFrom(ds[|ds| - 1].kind, ds[|ds| - 1].text))
  }

  function DomainSkips(ds: seq<SiteDomain>): nat {
    if ds == [] then 0
    else DomainSkips(ds[..|ds| - 1]) + if DomainFrom(ds[|ds| - 1].kind, ds[|ds| - 1].text).Skipped? then 1 else 0
  }

  /** The domains of every site of that name, in order. */
  function Asked(es: seq<Site>, want: seq<Byte>): Found {
    if es == [] then Found([], 0, false)
    else
      var was, e := Asked(es[..|es| - 1], want), es[|es| - 1];
      if LowerBytes(e.name) != want then was
      else Found(was.rules + DomainRules(e.domains), was.skipped + DomainSkips(e.domains), true)
  }

  lemma {:induction false} DomainRead(d: SiteDomain)
    ensures DomainMeaning(DomainFields(d)) == DomainFrom(d.kind, d.text)
  {
    var fs := DomainFields(d);
    assert fs[..1] == [fs[0]] && [fs[0]][..0] == [];
    assert LastNumber(fs[..1], 1) == d.kind;
  }

  lemma {:induction false} EntryRead(first: Field, ds: seq<SiteDomain>)
    requires Has(first, 1, 2)
    ensures SiteRules([first] + DomainRecords(ds)) == DomainRules(ds)
    ensures SiteSkips([first] + DomainRecords(ds)) == DomainSkips(ds)
  {
    hide DomainMeaning, DomainFields, DomainFrom;
    var fs := [first] + DomainRecords(ds);
    if ds == [] {
      assert fs == [first] && fs[..0] == [];
    } else {
      var front := ds[..|ds| - 1];
      EntryRead(first, front);
      DomainRead(ds[|ds| - 1]);
      assert fs[..|fs| - 1] == [first] + DomainRecords(front);
    }
  }

  /** What is asked of a written list is what its encoding means. */
  lemma {:induction false} ListRead(es: seq<Site>, want: seq<Byte>)
    ensures SiteMeaning(ListFields(es), want) == Asked(es, want)
  {
    hide SiteRules, SiteSkips, DomainRules, DomainSkips, DomainRecords, LowerBytes;
    if es != [] {
      var front, e := es[..|es| - 1], es[|es| - 1];
      var f := Field(1, Message(SiteFields(e)));
      ListRead(front, want);
      EntryRead(Field(1, Raw(e.name)), e.domains);
      assert ListFields(es)[..|front|] == ListFields(front) by { ListLength(front); }
      ListLength(es);
      assert NameOf(FieldsOf(f)) == e.name;
    }
  }

  lemma {:induction false} ListLength(es: seq<Site>)
    ensures |ListFields(es)| == |es|
  {
    if es != [] { ListLength(es[..|es| - 1]); }
  }

  predicate KindsFit(ds: seq<SiteDomain>) { forall k :: 0 <= k < |ds| ==> ds[k].kind < TWO_64 }

  predicate SitesOk(es: seq<Site>) { forall i :: 0 <= i < |es| ==> KindsFit(es[i].domains) }

  lemma {:induction false} DomainOk(d: SiteDomain)
    requires d.kind < TWO_64
    ensures FieldOk(Field(2, Message(DomainFields(d))))
  {
  }

  lemma {:induction false} DomainRecordsOk(ds: seq<SiteDomain>)
    requires KindsFit(ds)
    ensures WellFormed(DomainRecords(ds)) && Messages(DomainRecords(ds), 2)
  {
    hide FieldOk, DomainFields;
    if ds != [] {
      DomainRecordsOk(ds[..|ds| - 1]);
      DomainOk(ds[|ds| - 1]);
    }
  }

  lemma {:induction false} SiteOk(e: Site)
    requires KindsFit(e.domains)
    ensures FieldOk(Field(1, Message(SiteFields(e)))) && Messages(SiteFields(e), 2)
  {
    hide DomainRecords;
    DomainRecordsOk(e.domains);
    var records := DomainRecords(e.domains);
    assert forall i :: 0 < i < |SiteFields(e)| ==> SiteFields(e)[i] == records[i - 1];
    assert FieldOk(Field(1, Raw(e.name)));
    assert WellFormed(SiteFields(e));
  }

  lemma {:induction false} ListOk(es: seq<Site>)
    requires SitesOk(es)
    ensures ListShape(ListFields(es))
  {
    hide FieldOk, SiteFields, KindsFit;
    if es != [] {
      ListOk(es[..|es| - 1]);
      SiteOk(es[|es| - 1]);
    }
  }

  /**
    Extracting from the encoding of a list: the rules asked for, in order, with
    the exact count of what was left out.
  */
  method ExtractWritten(es: seq<Site>, want: seq<Byte>) returns (result: Extraction)
    requires SitesOk(es) && want != [] && |Encode(ListFields(es))| <= MAX_DAT_BYTES
    ensures var m := Asked(es, want); result == if m.any then Rules(m.rules, m.skipped) else NotFound
  {
    hide Encode, SiteMeaning, Asked, ListFields, ListShape, SitesOk;
    ListOk(es);
    ListRead(es, want);
    result := ExtractGeoSiteRules(Encode(ListFields(es)), want, ListFields(es));
  }

  // ----- the same for networks -----

  datatype IpNetwork = IpNetwork(ip: seq<Byte>, prefix: nat)

  datatype Country = Country(name: seq<Byte>, networks: seq<IpNetwork>)

  function NetworkFields(n: IpNetwork): seq<Field> { [Field(1, Raw(n.ip)), Field(2, Number(n.prefix))] }

  function NetworkRecords(ns: seq<IpNetwork>): seq<Field> {
    if ns == [] then [] else NetworkRecords(ns[..|ns| - 1]) + [Field(2, Message(NetworkFields(ns[|ns| - 1])))]
  }

  function CountryFields(c: Country): seq<Field> { [Field(1, Raw(c.name))] + NetworkRecords(c.networks) }

  function CountryList(cs: seq<Country>): seq<Field> {
    if cs == [] then [] else CountryList(cs[..|cs| - 1]) + [Field(1, Message(CountryFields(cs[|cs| - 1])))]
  }

  function NetworkRules(ns: seq<IpNetwork>): seq<GeoRule> {
    if ns == [] then []
    else NetworkRules(ns[..|ns| - 1]) + NetworkFrom(CidrFrom(ns[|ns| - 1].ip, ns[|ns| - 1].prefix))
  }

  predicate AddressesFit(ns: seq<IpNetwork>) {
    forall k :: 0 <= k < |ns| ==> |ns[k].ip| == 0 || |ns[k].ip| == 4 || |ns[k].ip| == 16
  }

  /** The networks of every country of that name, in order, or a refusal if one of them has an odd address. */
  function AskedNetworks(cs: seq<Country>, want: seq<Byte>): Extraction {
    if cs == [] then NotFound
    else
      var was, c := AskedNetworks(cs[..|cs| - 1], want), cs[|cs| - 1];
      if LowerBytes(c.name) != want || was.Malformed? then was
      else if !AddressesFit(c.networks) then Malformed
      else Rules((if was.Rules? then was.rules else []) + NetworkRules(c.networks), 0)
  }

  lemma {:induction false} NetworkRead(n: IpNetwork)
    ensures CidrMeaning(NetworkFields(n)) == CidrFrom(n.ip, n.prefix)
  {
    var fs := NetworkFields(n);
    assert fs[..1] == [fs[0]] && [fs[0]][..0] == [];
    assert LastBytes(fs[..1], 1) == n.ip;
  }

  lemma {:induction false} FitSnoc(ns: seq<IpNetwork>)
    requires ns != []
    ensures AddressesFit(ns)
            <==> AddressesFit(ns[..|ns| - 1]) && !CidrFrom(ns[|ns| - 1].ip, ns[|ns| - 1].prefix).BadCidr?
  {
    var front := ns[..|ns| - 1];
    assert forall k :: 0 <= k < |front| ==> front[k] == ns[k];
  }

  lemma {:induction false} CountryRead(first: Field, ns: seq<IpNetwork>)
    requires Has(first, 1, 2)
    ensures IpRules([first] + NetworkRecords(ns)) == NetworkRules(ns)
    ensures GoodNetworks([first] + NetworkRecords(ns)) <==> AddressesFit(ns)
  {
    hide CidrMeaning, CidrFrom, NetworkFields, AddressesFit, GoodNetworks;
    var fs := [first] + NetworkRecords(ns);
    if ns == [] {
      assert fs == [first] && fs[..0] == [];
      assert GoodNetworks([first]) && AddressesFit(ns) by { OnlyName(first); }
    } else {
      var front, last := ns[..|ns| - 1], ns[|ns| - 1];
      var was := [first] + NetworkRecords(front);
      CountryRead(first, front);
      NetworkRead(last);
      assert fs == was + [Field(2, Message(NetworkFields(last)))] && fs[..|was|] == was;
      GoodSnoc(was, Field(2, Message(NetworkFields(last))));
      FitSnoc(ns);
    }
  }

  lemma {:induction false} OnlyName(first: Field)
    requires Has(first, 1, 2)
    ensures GoodNetworks([first]) && AddressesFit([])
  {
  }

  lemma {:induction false} GoodSnoc(fs: seq<Field>, f: Field)
    ensures GoodNetworks(fs + [f]) <==> GoodNetworks(fs) && (Has(f, 2, 2) ==> !CidrMeaning(FieldsOf(f)).BadCidr?)
  {
    hide CidrMeaning, Has, FieldsOf;
    var all := fs + [f];
    assert all[|fs|] == f && forall k :: 0 <= k < |fs| ==> fs[k] == all[k];
  }

  lemma {:induction false} WantedSnoc(fs: seq<Field>, f: Field, want: seq<Byte>)
    ensures WantedNetworksGood(fs + [f], want)
            <==> WantedNetworksGood(fs, want) && (Wanted(f, want) ==> GoodNetworks(FieldsOf(f)))
  {
    hide Wanted, GoodNetworks, FieldsOf;
    var all := fs + [f];
    assert all[|fs|] == f && forall k :: 0 <= k < |fs| ==> fs[k] == all[k];
  }

  /** What is asked of a written list of countries is what its encoding answers. */
  lemma {:induction false} CountriesRead(cs: seq<Country>, want: seq<Byte>)
    ensures IpAnswer(CountryList(cs), want) == AskedNetworks(cs, want)
    ensures IpMeaning(CountryList(cs), want).any || IpMeaning(CountryList(cs), want).rules == []
  {
    hide IpRules, NetworkRules, NetworkRecords, LowerBytes, GoodNetworks, AddressesFit, WantedNetworksGood;
    if cs == [] {
      assert WantedNetworksGood(CountryList(cs), want) by { NothingWanted(want); }
    } else {
      var front, c := cs[..|cs| - 1], cs[|cs| - 1];
      var fs, f := CountryList(front), Field(1, Message(CountryFields(c)));
      CountriesRead(front, want);
      CountryRead(Field(1, Raw(c.name)), c.networks);
      WantedSnoc(fs, f, want);
      assert (fs + [f])[..|fs|] == fs;
      assert NameOf(FieldsOf(f)) == c.name;
    }
  }

  lemma {:induction false} NothingWanted(want: seq<Byte>)
    ensures WantedNetworksGood([], want)
  {
  }

  predicate PrefixesFit(ns: seq<IpNetwork>) { forall k :: 0 <= k < |ns| ==> ns[k].prefix < TWO_64 }

  predicate CountriesOk(cs: seq<Country>) { forall i :: 0 <= i < |cs| ==> PrefixesFit(cs[i].networks) }

  lemma {:induction false} NetworkOk(n: IpNetwork)
    requires n.prefix < TWO_64
    ensures FieldOk(Field(2, Message(NetworkFields(n))))
  {
  }

  lemma {:induction false} NetworkRecordsOk(ns: seq<IpNetwork>)
    requires PrefixesFit(ns)
    ensures WellFormed(NetworkRecords(ns)) && Messages(NetworkRecords(ns), 2)
  {
    hide FieldOk, NetworkFields;
    if ns != [] {
      NetworkRecordsOk(ns[..|ns| - 1]);
      NetworkOk(ns[|ns| - 1]);
    }
  }

  lemma {:induction false} CountryOk(c: Country)
    requires PrefixesFit(c.networks)
    ensures FieldOk(Field(1, Message(CountryFields(c)))) && Messages(CountryFields(c), 2)
  {
    hide NetworkRecords;
    NetworkRecordsOk(c.networks);
    var records := NetworkRecords(c.networks);
    assert forall i :: 0 < i < |CountryFields(c)| ==> CountryFields(c)[i] == records[i - 1];
    assert FieldOk(Field(1, Raw(c.name)));
    assert WellFormed(CountryFields(c));
  }

  lemma {:induction false} CountriesShape(cs: seq<Country>)
    requires CountriesOk(cs)
    ensures ListShape(CountryList(cs))
  {
    hide FieldOk, CountryFields, PrefixesFit;
    if cs != [] {
      CountriesShape(cs[..|cs| - 1]);
      CountryOk(cs[|cs| - 1]);
    }
  }

  /** Extracting from the encoding of a list of countries: the networks asked for, in order. */
  method ExtractWrittenNetworks(cs: seq<Country>, want: seq<Byte>) returns (result: Extraction)
    requires CountriesOk(cs) && want != [] && |Encode(CountryList(cs))| <= MAX_DAT_BYTES
    ensures result == AskedNetworks(cs, want)
  {
    hide Encode, IpAnswer, AskedNetworks, CountryList, ListShape, CountriesOk;
    CountriesShape(cs);
    CountriesRead(cs, want);
    result := ExtractGeoIPRules(Encode(CountryList(cs)), want, CountryList(cs));
  }

  // ----- what the rules mean to a host -----

  /** The part stands somewhere in the host. */
  predicate Holds(host: seq<Byte>, part: seq<Byte>) {
    exists i :: 0 <= i <= |host| - |part| && At(host, i, part)
  }

  /** The host is the domain or ends with a dot and the domain. */
  predicate Under(host: seq<Byte>, domain: seq<Byte>) {
    host == domain || (|host| > |domain| && At(host, |host| - |domain| - 1, [46] + domain))
  }

  predicate RuleMatches(r: GeoRule, host: seq<Byte>) {
    r.DomainRule? &&
      match r.kind
      case Keyword => Holds(host, r.text)
      case Suffix => Under(host, r.text)
      case Full => host == r.text
      case _ => false
  }

  /** The format's types: 0 is a plain part, 2 a domain with all below it, 3 one host; 1 is a pattern. */
  predicate Covers(d: SiteDomain, host: seq<Byte>) {
    && d.text != []
    && ((d.kind == 0 && Holds(host, d.text)) || (d.kind == 2 && Under(host, d.text)) || (d.kind == 3 && host == d.text))
  }

  predicate Unreadable(d: SiteDomain) { d.text != [] && d.kind != 0 && d.kind != 2 && d.kind != 3 }

  predicate AnyMatches(rules: seq<GeoRule>, host: seq<Byte>) {
    exists i :: 0 <= i < |rules| && RuleMatches(rules[i], host)
  }

  predicate AnyCovers(ds: seq<SiteDomain>, host: seq<Byte>) {
    exists i :: 0 <= i < |ds| && Covers(ds[i], host)
  }

  function UnreadableCount(ds: seq<SiteDomain>): nat {
    if ds == [] then 0 else UnreadableCount(ds[..|ds| - 1]) + if Unreadable(ds[|ds| - 1]) then 1 else 0
  }

  lemma {:induction false} DomainFromMeans(d: SiteDomain, host: seq<Byte>)
    ensures AnyMatches(KeptFrom(DomainFrom(d.kind, d.text)), host) <==> Covers(d, host)
    ensures DomainFrom(d.kind, d.text).Skipped? <==> Unreadable(d)
  {
    hide Holds, Under;
    var kept := KeptFrom(DomainFrom(d.kind, d.text));
    assert kept != [] ==> (AnyMatches(kept, host) <==> RuleMatches(kept[0], host));
  }

  lemma {:induction false} MatchesConcat(a: seq<GeoRule>, b: seq<GeoRule>, host: seq<Byte>)
    ensures AnyMatches(a + b, host) <==> AnyMatches(a, host) || AnyMatches(b, host)
  {
    hide RuleMatches;
    if AnyMatches(a, host) {
      var i :| 0 <= i < |a| && RuleMatches(a[i], host);
      assert (a + b)[i] == a[i];
    }
    if AnyMatches(b, host) {
      var i :| 0 <= i < |b| && RuleMatches(b[i], host);
      assert (a + b)[|a| + i] == b[i];
    }
  }

  lemma {:induction false} DomainRulesMean(ds: seq<SiteDomain>, host: seq<Byte>)
    ensures AnyMatches(DomainRules(ds), host) <==> AnyCovers(ds, host)
    ensures DomainSkips(ds) == UnreadableCount(ds)
  {
    hide Covers, DomainFrom, KeptFrom, RuleMatches, Unreadable;
    if ds != [] {
      var front, last := ds[..|ds| - 1], ds[|ds| - 1];
      DomainRulesMean(front, host);
      DomainFromMeans(last, host);
      MatchesConcat(DomainRules(front), KeptFrom(DomainFrom(last.kind, last.text)), host);
      assert forall i :: 0 <= i < |front| ==> front[i] == ds[i];
    }
  }

  /** A letter and itself in the other case. */
  predicate CaseTwins(x: Byte, y: Byte) {
    x == y || (65 <= x <= 90 && y == x + 32) || (65 <= y <= 90 && x == y + 32)
  }

  predicate SameButCase(a: seq<Byte>, b: seq<Byte>) {
    |a| == |b| && forall i :: 0 <= i < |a| ==> CaseTwins(a[i], b[i])
  }

  lemma {:induction false} LoweredAt(a: seq<Byte>)
    ensures |LowerBytes(a)| == |a|
    ensures forall i :: 0 <= i < |a| ==> LowerBytes(a)[i] == if 65 <= a[i] <= 90 then a[i] + 32 else a[i]
  {
    if a != [] { LoweredAt(a[1..]); }
  }

  /** Lowering tells names apart that differ in more than case. */
  lemma {:induction false} LowerMeans(name: seq<Byte>, asked: seq<Byte>)
    ensures LowerBytes(name) == LowerBytes(asked) <==> SameButCase(name, asked)
  {
    hide LowerBytes;
    LoweredAt(name);
    LoweredAt(asked);
    if LowerBytes(name) == LowerBytes(asked) {
      forall i | 0 <= i < |name| ensures CaseTwins(name[i], asked[i]) {
        assert LowerBytes(name)[i] == LowerBytes(asked)[i];
      }
    }
    if SameButCase(name, asked) {
      forall i | 0 <= i < |name| ensures LowerBytes(name)[i] == LowerBytes(asked)[i] {
        assert CaseTwins(name[i], asked[i]);
      }
      assert LowerBytes(name) == LowerBytes(asked);
    }
  }

  /** Some wanted site has a domain that covers the host. */
  predicate SiteCovers(es: seq<Site>, asked: seq<Byte>, host: seq<Byte>) {
    exists i :: 0 <= i < |es| && SameButCase(es[i].name, asked) && AnyCovers(es[i].domains, host)
  }

  predicate SiteWanted(es: seq<Site>, asked: seq<Byte>) {
    exists i :: 0 <= i < |es| && SameButCase(es[i].name, asked)
  }

  function UnreadableWanted(es: seq<Site>, asked: seq<Byte>): nat {
    if es == [] then 0
    else
      var e := es[|es| - 1];
      UnreadableWanted(es[..|es| - 1], asked) + if SameButCase(e.name, asked) then UnreadableCount(e.domains) else 0
  }

  lemma {:induction false} AskedMeans(es: seq<Site>, asked: seq<Byte>, host: seq<Byte>)
    ensures AnyMatches(Asked(es, LowerBytes(asked)).rules, host) <==> SiteCovers(es, asked, host)
    ensures Asked(es, LowerBytes(asked)).skipped == UnreadableWanted(es, asked)
    ensures Asked(es, LowerBytes(asked)).any <==> SiteWanted(es, asked)
  {
    hide LowerBytes, SameButCase, DomainRules, DomainSkips, AnyCovers, RuleMatches;
    if es != [] {
      var front, e := es[..|es| - 1], es[|es| - 1];
      AskedMeans(front, asked, host);
      LowerMeans(e.name, asked);
      DomainRulesMean(e.domains, host);
      MatchesConcat(Asked(front, LowerBytes(asked)).rules, DomainRules(e.domains), host);
      assert forall i :: 0 <= i < |front| ==> front[i] == es[i];
    }
  }

  /**
    From the encoding of a list, for a name as it was asked: rules exactly when a
    site is so called up to case, matching exactly the hosts that a domain of
    such a site covers, with the number of domains of other types beside them.
  */
  method ExtractCovering(es: seq<Site>, asked: seq<Byte>) returns (result: Extraction)
    requires SitesOk(es) && asked != [] && |Encode(ListFields(es))| <= MAX_DAT_BYTES
    ensures if SiteWanted(es, asked) then result.Rules? && result.skipped == UnreadableWanted(es, asked)
            else result == NotFound
    ensures result.Rules? ==> forall host :: AnyMatches(result.rules, host) <==> SiteCovers(es, asked, host)
  {
    hide SitesOk, Encode, ListFields, Asked, AnyMatches, SiteCovers, SiteWanted, UnreadableWanted;
    LoweredAt(asked);
    result := ExtractWritten(es, LowerBytes(asked));
    AskedMeans(es, asked, []);
    forall host ensures AnyMatches(Asked(es, LowerBytes(asked)).rules, host) <==> SiteCovers(es, asked, host) {
      AskedMeans(es, asked, host);
    }
  }

  // ----- and the networks -----

  /** An IPv4 rule of a four-byte address or an IPv6 rule of a sixteen-byte one, with the address and its own length. */
  predicate RuleFor(r: GeoRule, n: IpNetwork) {
    || (|n.ip| == 4 && r == CidrRule(Cidr4, n.ip, n.prefix))
    || (|n.ip| == 16 && r == CidrRule(Cidr6, n.ip, n.prefix))
  }

  predicate OddAddress(n: IpNetwork) { |n.ip| != 0 && |n.ip| != 4 && |n.ip| != 16 }

  predicate HasOdd(ns: seq<IpNetwork>) { exists k :: 0 <= k < |ns| && OddAddress(ns[k]) }

  predicate HasRuleFor(ns: seq<IpNetwork>, r: GeoRule) { exists k :: 0 <= k < |ns| && RuleFor(r, ns[k]) }

  lemma {:induction false} NetworkRulesMean(ns: seq<IpNetwork>, r: GeoRule)
    ensures r in NetworkRules(ns) <==> HasRuleFor(ns, r)
  {
    if ns != [] {
      var front := ns[..|ns| - 1];
      NetworkRulesMean(front, r);
      assert forall k :: 0 <= k < |front| ==> front[k] == ns[k];
    }
  }

  lemma {:induction false} AddressesMean(ns: seq<IpNetwork>)
    ensures AddressesFit(ns) <==> !HasOdd(ns)
  {
  }

  predicate CountryWanted(cs: seq<Country>, asked: seq<Byte>) {
    exists i :: 0 <= i < |cs| && SameButCase(cs[i].name, asked)
  }

  predicate OddWanted(cs: seq<Country>, asked: seq<Byte>) {
    exists i :: 0 <= i < |cs| && SameButCase(cs[i].name, asked) && HasOdd(cs[i].networks)
  }

  predicate RuleWanted(cs: seq<Country>, asked: seq<Byte>, r: GeoRule) {
    exists i :: 0 <= i < |cs| && SameButCase(cs[i].name, asked) && HasRuleFor(cs[i].networks, r)
  }

  /** A wanted country with an odd address is refused; else the rules are those of the wanted countries' networks. */
  ghost predicate NetworksAnswer(cs: seq<Country>, asked: seq<Byte>, result: Extraction) {
    if OddWanted(cs, asked) then result == Malformed
    else if CountryWanted(cs, asked) then
      && result.Rules? && result.skipped == 0
      && forall r :: r in result.rules <==> RuleWanted(cs, asked, r)
    else result == NotFound
  }

  lemma {:induction false} WantedCountriesSnoc(cs: seq<Country>, asked: seq<Byte>)
    requires cs != []
    ensures var front, c := cs[..|cs| - 1], cs[|cs| - 1];
            && (CountryWanted(cs, asked) <==> CountryWanted(front, asked) || SameButCase(c.name, asked))
            && (OddWanted(cs, asked) <==> OddWanted(front, asked) || (SameButCase(c.name, asked) && HasOdd(c.networks)))
            && forall r :: RuleWanted(cs, asked, r) <==>
                             RuleWanted(front, asked, r) || (SameButCase(c.name, asked) && HasRuleFor(c.networks, r))
  {
    hide SameButCase, HasOdd, HasRuleFor;
    var front := cs[..|cs| - 1];
    assert forall i :: 0 <= i < |front| ==> front[i] == cs[i];
  }

  lemma {:induction false} AskedNetworksMean(cs: seq<Country>, asked: seq<Byte>)
    ensures NetworksAnswer(cs, asked, AskedNetworks(cs, LowerBytes(asked)))
    ensures AskedNetworks(cs, LowerBytes(asked)) != EmptyName
  {
    if cs != [] {
      hide LowerBytes, SameButCase, NetworkRules, HasOdd, HasRuleFor, AddressesFit, CountryWanted, OddWanted,
          RuleWanted;
      var front, c := cs[..|cs| - 1], cs[|cs| - 1];
      AskedNetworksMean(front, asked);
      WantedCountriesSnoc(cs, asked);
      NothingBehind(front, asked);
      LowerMeans(c.name, asked);
      AddressesMean(c.networks);
      forall r ensures r in NetworkRules(c.networks) <==> HasRuleFor(c.networks, r) { NetworkRulesMean(c.networks, r); }
    }
  }

  lemma {:induction false} NothingBehind(cs: seq<Country>, asked: seq<Byte>)
    ensures !CountryWanted(cs, asked) ==> forall r :: !RuleWanted(cs, asked, r)
  {
  }

  lemma {:induction false} LoweredIsThere(a: seq<Byte>)
    ensures LowerBytes(a) == [] <==> a == []
  {
  }

  /** From the encoding of a list of countries: the networks of those called so up to case, or a refusal. */
  method ExtractNetworks(cs: seq<Country>, asked: seq<Byte>) returns (result: Extraction)
    requires CountriesOk(cs) && asked != [] && |Encode(CountryList(cs))| <= MAX_DAT_BYTES
    ensures NetworksAnswer(cs, asked, result)
  {
    hide *;
    LoweredIsThere(asked);
    result := ExtractWrittenNetworks(cs, LowerBytes(asked));
    AskedNetworksMean(cs, asked);
  }

  // ----- the encoder against the format's own examples -----

  /** "Encoding" of Protocol Buffers: 150 in field 1, the text testing in field 2, a message in field 3, and 300. */
  lemma {:induction false} FormatExamples()
    ensures EncodeField(Field(1, Number(150))) == [0x08, 0x96, 0x01]
    ensures EncodeField(Field(2, Raw([0x74, 0x65, 0x73, 0x74, 0x69, 0x6e, 0x67])))
            == [0x12, 0x07, 0x74, 0x65, 0x73, 0x74, 0x69, 0x6e, 0x67]
    ensures EncodeField(Field(3, Message([Field(1, Number(150))]))) == [0x1a, 0x03, 0x08, 0x96, 0x01]
    ensures EncodeVarint(300) == [0xac, 0x02]
  {
    assert EncodeVarint(1) == [1] && EncodeVarint(2) == [2];
    assert EncodeVarint(150) == [0x96] + EncodeVarint(1);
    assert EncodeVarint(300) == [0xac] + EncodeVarint(2);
    assert EncodeField(Field(1, Number(150))) == [0x08] + [0x96, 0x01];
    var fs := [Field(1, Number(150))];
    assert fs[..0] == [] && Encode(fs) == EncodeField(fs[0]);
  }

  // ----- and their order -----

  /** The rules of one list of domains behind another are the rules of the one behind those of the other. */
  lemma {:induction false} DomainsInOrder(a: seq<SiteDomain>, b: seq<SiteDomain>)
    ensures DomainRules(a + b) == DomainRules(a) + DomainRules(b)
  {
    hide DomainFrom, KeptFrom;
    if b == [] {
      assert a + b == a;
    } else {
      assert (a + b)[..|a + b| - 1] == a + b[..|b| - 1];
      DomainsInOrder(a, b[..|b| - 1]);
    }
  }

  /** So are those of one list of sites behind another. */
  lemma {:induction false} SitesInOrder(a: seq<Site>, b: seq<Site>, want: seq<Byte>)
    ensures Asked(a + b, want).rules == Asked(a, want).rules + Asked(b, want).rules
  {
    hide DomainRules, DomainSkips, LowerBytes;
    if b == [] {
      assert a + b == a;
    } else {
      assert (a + b)[..|a + b| - 1] == a + b[..|b| - 1];
      SitesInOrder(a, b[..|b| - 1], want);
    }
  }
}
