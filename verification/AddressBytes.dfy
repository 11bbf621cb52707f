/**
  Sixteen-byte big-endian addresses: the bit tests, in-place bit setting and
  carry propagation of the IPv6 helpers, proved against the number an address
  denotes.
*/
module AddressBytes {
  import opened Powers

  type Addr16 = a: seq<bv8> | |a| == 16 witness seq(16, _ => 0)

  /** The byte with only bit k set, counting from the most significant: 1 << (7 - k). */
  function Mask(k: nat): bv8
    requires k < 8
  {
    match k
    case 0 => 0x80
    case 1 => 0x40
    case 2 => 0x20
    case 3 => 0x10
    case 4 => 0x08
    case 5 => 0x04
    case 6 => 0x02
    case _ => 0x01
  }

  predicate Bit(b: bv8, k: nat)
    requires k < 8
  {
    b & Mask(k) != 0
  }

  function Bits(a: seq<bv8>): (r: seq<bool>)
    ensures |r| == 8 * |a|
  {
    seq(8 * |a|, i requires 0 <= i < 8 * |a| => Bit(a[i / 8], i % 8))
  }

  function Num(bits: seq<bool>): nat {
    if bits == [] then 0
    else 2 * Num(bits[..|bits| - 1]) + (if bits[|bits| - 1] then 1 else 0)
  }

  /** The number a big-endian byte string denotes. */
  function Value(a: seq<bv8>): nat {
    if a == [] then 0 else 256 * Value(a[..|a| - 1]) + a[|a| - 1] as nat
  }

  // ----- bits and numbers -----

  lemma {:induction false} NumSplit(x: seq<bool>, y: seq<bool>)
    ensures Num(x + y) == Num(x) * Pow2(|y|) + Num(y)
  {
    if y == [] {
      assert x + y == x;
    } else {
      var front := y[..|y| - 1];
      NumSplit(x, front);
      assert (x + y)[..|x + y| - 1] == x + front;
      assert 2 * (Num(x) * Pow2(|front|)) == Num(x) * Pow2(|y|) by {
        Regroup(Num(x), Pow2(|front|));
      }
    }
  }

  lemma {:induction false} Regroup(x: int, y: int)
    ensures 2 * (x * y) == x * (2 * y)
  {
  }

  lemma {:induction false} NumBounded(x: seq<bool>)
    ensures Num(x) < Pow2(|x|)
  {
    if x != [] {
      NumBounded(x[..|x| - 1]);
    }
  }

  lemma {:induction false} NumExtremes(x: seq<bool>)
    ensures Num(x) == 0 <==> forall i :: 0 <= i < |x| ==> !x[i]
    ensures Num(x) == Pow2(|x|) - 1 <==> forall i :: 0 <= i < |x| ==> x[i]
  {
    if x != [] {
      var front := x[..|x| - 1];
      NumExtremes(front);
      NumBounded(front);
      assert forall i :: 0 <= i < |front| ==> x[i] == front[i];
    }
  }

  /** Dividing by a power of two cuts the bit string. */
  lemma {:induction false} NumCut(bits: seq<bool>, p: nat)
    requires p <= |bits|
    ensures Num(bits) % Pow2(|bits| - p) == Num(bits[p..])
    ensures Num(bits) == Num(bits[..p]) * Pow2(|bits| - p) + Num(bits[p..])
  {
    assert bits == bits[..p] + bits[p..];
    NumSplit(bits[..p], bits[p..]);
    NumBounded(bits[p..]);
    RemainderUnique(Num(bits), Pow2(|bits| - p), Num(bits[..p]), Num(bits[p..]));
  }

  lemma {:induction false} OctetIndex(i: nat, n: nat)
    requires 8 * n <= i
    ensures (i - 8 * n) / 8 == i / 8 - n && (i - 8 * n) % 8 == i % 8
  {
  }

  lemma {:induction false} BitsConcat(a: seq<bv8>, b: seq<bv8>)
    ensures Bits(a + b) == Bits(a) + Bits(b)
  {
    var n := |a|;
    forall i | 0 <= i < 8 * |a + b|
      ensures Bits(a + b)[i] == (Bits(a) + Bits(b))[i]
    {
      if i < 8 * n {
        assert (a + b)[i / 8] == a[i / 8];
      } else {
        OctetIndex(i, n);
        assert (a + b)[i / 8] == b[(i - 8 * n) / 8];
      }
    }
  }

  function One(t: bool): nat { if t then 1 else 0 }

  lemma {:induction false} Horner(x: seq<bool>, k: nat)
    requires k < |x|
    ensures Num(x[..k + 1]) == 2 * Num(x[..k]) + One(x[k])
  {
    assert x[..k + 1][..k] == x[..k];
  }

  lemma {:induction false} Octet(x: seq<bool>)
    requires |x| == 8
    ensures Num(x) == 128 * One(x[0]) + 64 * One(x[1]) + 32 * One(x[2]) + 16 * One(x[3])
                      + 8 * One(x[4]) + 4 * One(x[5]) + 2 * One(x[6]) + One(x[7])
  {
    Nibble(x);
    Horner(x, 4);
    Horner(x, 5);
    Horner(x, 6);
    Horner(x, 7);
    assert x[..8] == x;
  }

  lemma {:induction false} Nibble(x: seq<bool>)
    requires |x| >= 4
    ensures Num(x[..4]) == 8 * One(x[0]) + 4 * One(x[1]) + 2 * One(x[2]) + One(x[3])
  {
    Horner(x, 0);
    Horner(x, 1);
    Horner(x, 2);
    Horner(x, 3);
  }

  lemma {:induction false} OneByte(b: bv8)
    ensures Num(Bits([b])) == b as nat
  {
    Octet(Bits([b]));
  }

  lemma {:induction false} NumSnoc(a: seq<bv8>, b: bv8)
    ensures Num(Bits(a + [b])) == 256 * Num(Bits(a)) + b as nat
  {
    hide Bits, Num, Pow2;
    BitsConcat(a, [b]);
    NumSplit(Bits(a), Bits([b]));
    OneByte(b);
    WordSizes();
  }

  /** Reading an address bit by bit or byte by byte gives the same number. */
  lemma {:induction false} ValueIsNum(a: seq<bv8>)
    ensures Value(a) == Num(Bits(a))
  {
    if a != [] {
      ValueIsNum(a[..|a| - 1]);
      NumSnoc(a[..|a| - 1], a[|a| - 1]);
      assert a == a[..|a| - 1] + [a[|a| - 1]];
    }
  }

  lemma {:induction false} ValueBounded(a: seq<bv8>)
    ensures Value(a) < Pow2(8 * |a|)
  {
    ValueIsNum(a);
    NumBounded(Bits(a));
  }

  lemma {:induction false} NextOctet(n: nat)
    ensures Pow2(8 * (n + 1)) == 256 * Pow2(8 * n)
  {
    WordSizes();
    Pow2Add(8, 8 * n);
  }

  lemma {:induction false} ValueSplit(a: seq<bv8>, b: seq<bv8>)
    ensures Value(a + b) == Value(a) * Pow2(8 * |b|) + Value(b)
  {
    if b == [] {
      assert a + b == a;
    } else {
      var front := b[..|b| - 1];
      ValueSplit(a, front);
      assert (a + b)[..|a + b| - 1] == a + front;
      NextOctet(|front|);
      Scale(Value(a), Pow2(8 * |front|));
    }
  }

  lemma {:induction false} Scale(x: int, y: int)
    ensures 256 * (x * y) == x * (256 * y)
  {
  }

  lemma {:induction false} ByteSuccessor(b: bv8)
    ensures b != 0xff ==> b + 1 != 0 && (b + 1) as nat == b as nat + 1
    ensures b == 0xff ==> b + 1 == 0
  {
  }

  // ----- lexicographic order is numeric order -----

  /** The sign of a byte-wise comparison. */
  function Compare(a: seq<bv8>, b: seq<bv8>): (r: int)
    requires |a| == |b|
    ensures r < 0 <==> Value(a) < Value(b)
    ensures r == 0 <==> a == b
    ensures r > 0 <==> Value(a) > Value(b)
  {
    if a == [] then 0
    else
      FirstByteDecides(a, b);
      if a[0] < b[0] then -1 else if b[0] < a[0] then 1 else Compare(a[1..], b[1..])
  }

  lemma {:induction false} ValueCons(a: seq<bv8>)
    requires a != []
    ensures Value(a) == a[0] as nat * Pow2(8 * (|a| - 1)) + Value(a[1..])
    ensures Value(a[1..]) < Pow2(8 * (|a| - 1))
  {
    assert a == [a[0]] + a[1..];
    ValueSplit([a[0]], a[1..]);
    ValueBounded(a[1..]);
  }

  lemma {:induction false} FirstByteLess(a: seq<bv8>, b: seq<bv8>)
    requires |a| == |b| > 0 && a[0] < b[0]
    ensures Value(a) < Value(b)
  {
    ValueCons(a);
    ValueCons(b);
    LeadingDigitDecides(a[0] as nat, b[0] as nat, Pow2(8 * (|a| - 1)), Value(a[1..]), Value(b[1..]));
  }

  lemma {:induction false} LeadingDigitDecides(x: nat, y: nat, unit: nat, u: nat, v: nat)
    requires x < y && u < unit
    ensures x * unit + u < y * unit + v
  {
    Distribute(x, unit);
    MulMonotone(x + 1, y, unit);
  }

  lemma {:induction false} FirstByteDecides(a: seq<bv8>, b: seq<bv8>)
    requires |a| == |b| > 0
    ensures a[0] < b[0] ==> Value(a) < Value(b)
    ensures b[0] < a[0] ==> Value(b) < Value(a)
    ensures a[0] == b[0] ==> Value(a) - Value(b) == Value(a[1..]) - Value(b[1..])
    ensures a == b <==> a[0] == b[0] && a[1..] == b[1..]
  {
    assert a == [a[0]] + a[1..] && b == [b[0]] + b[1..];
    if a[0] < b[0] {
      FirstByteLess(a, b);
    } else if b[0] < a[0] {
      FirstByteLess(b, a);
    } else {
      ValueCons(a);
      ValueCons(b);
    }
  }

  lemma {:induction false} Distribute(x: int, y: int)
    ensures (x + 1) * y == x * y + y
  {
  }

  // ----- the three helpers of the IPv6 walk -----

  lemma {:induction false} AlignedBits(a: Addr16, plen: nat)
    requires plen <= 128
    ensures Value(a) % Pow2(128 - plen) == 0 <==> forall k :: plen <= k < 128 ==> !Bits(a)[k]
  {
    var bits := Bits(a);
    ValueIsNum(a);
    NumCut(bits, plen);
    NumExtremes(bits[plen..]);
    if forall i :: 0 <= i < |bits[plen..]| ==> !bits[plen..][i] {
      forall k | plen <= k < 128 ensures !bits[k] { assert !bits[plen..][k - plen]; }
    }
  }

  /** Setting every bit from p on in an aligned number adds the block size minus one. */
  lemma {:induction false} NumHostBitsSet(x: seq<bool>, y: seq<bool>, p: nat)
    requires p <= |x| == |y| && x[..p] == y[..p]
    requires forall k :: 0 <= k < |y[p..]| ==> y[p..][k]
    requires Num(x) % Pow2(|x| - p) == 0
    ensures Num(y) == Num(x) + Pow2(|x| - p) - 1
  {
    NumCut(x, p);
    NumCut(y, p);
    NumExtremes(y[p..]);
  }

  lemma {:induction false} HostBitsSet(a: Addr16, last: Addr16, plen: nat)
    requires plen <= 128 && Bits(last)[..plen] == Bits(a)[..plen]
    requires forall k :: plen <= k < 128 ==> Bits(last)[k]
    requires Value(a) % Pow2(128 - plen) == 0
    ensures Value(last) == Value(a) + Pow2(128 - plen) - 1
  {
    ValueIsNum(a);
    ValueIsNum(last);
    NumHostBitsSet(Bits(a), Bits(last), plen);
  }

  /** One bit test of an address: addr[i/8] & (1 << (7 - i%8)) != 0. */
  predicate BitSet(addr: Addr16, i: nat)
    requires i < 128
    ensures BitSet(addr, i) == Bits(addr)[i]
  {
    addr[i / 8] & Mask(i % 8) != 0
  }

  /** aligned6: every host bit below plen is zero, that is, the address starts a /plen block. */
  method Aligned6(addr: Addr16, plen: nat) returns (aligned: bool)
    requires plen <= 128
    ensures aligned <==> Value(addr) % Pow2(128 - plen) == 0
  {
    AlignedBits(addr, plen);
    ghost var bits := Bits(addr);
    for i := plen to 128
      invariant forall k :: plen <= k < i ==> !bits[k]
    {
      if BitSet(addr, i) {
        return false;
      }
    }
    return true;
  }

  lemma {:induction false} SetBit(b: bv8, k: nat, j: nat)
    requires k < 8 && j < 8
    ensures Bit(b | Mask(k), j) <==> j == k || Bit(b, j)
  {
  }

  lemma {:induction false} OrBit(a: Addr16, b: Addr16, i: nat)
    requires i < 128 && b == a[i / 8 := a[i / 8] | Mask(i % 8)]
    ensures Bits(b) == Bits(a)[i := true]
  {
    forall k | 0 <= k < 128
      ensures Bits(b)[k] == Bits(a)[i := true][k]
    {
      if k / 8 == i / 8 {
        SetBit(a[i / 8], i % 8, k % 8);
      }
    }
  }

  /** lastInBlock6: sets every host bit of a copy, which for a block's first address adds the block's size minus one. */
  method LastInBlock6(addr: Addr16, plen: nat) returns (last: Addr16)
    requires plen <= 128
    ensures Bits(last)[..plen] == Bits(addr)[..plen]
    ensures Value(addr) % Pow2(128 - plen) == 0 ==> Value(last) == Value(addr) + Pow2(128 - plen) - 1
  {
    var out := new bv8[16](i requires 0 <= i < 16 => addr[i]);
    assert out[..] == addr;
    for i := plen to 128
      invariant Bits(out[..])[..plen] == Bits(addr)[..plen]
      invariant forall k :: plen <= k < i ==> Bits(out[..])[k]
    {
      ghost var before := out[..];
      out[i / 8] := out[i / 8] | Mask(i % 8);
      OrBit(before, out[..], i);
    }
    last := out[..];
    if Value(addr) % Pow2(128 - plen) == 0 {
      HostBitsSet(addr, last, plen);
    }
  }

  /** The bytes from i on are all-ones in a and have wrapped to zero in b. */
  ghost predicate Wrapped(a: seq<bv8>, b: seq<bv8>, i: nat) {
    |a| == |b| && i <= |a| && forall k :: i <= k < |a| ==> a[k] == 0xff && b[k] == 0
  }

  lemma {:induction false} OnesThenOnes(a: seq<bv8>)
    requires a != [] && a[0] == 0xff && Value(a[1..]) == Pow2(8 * (|a| - 1)) - 1
    ensures Value(a) == Pow2(8 * |a|) - 1
  {
    ValueCons(a);
    NextOctet(|a| - 1);
  }

  lemma {:induction false} ZeroThenZeros(a: seq<bv8>)
    requires a != [] && a[0] == 0 && Value(a[1..]) == 0
    ensures Value(a) == 0
  {
    ValueCons(a);
  }

  lemma {:induction false} WrappedValue(a: seq<bv8>, b: seq<bv8>, i: nat)
    requires Wrapped(a, b, i)
    ensures Value(a[i..]) == Pow2(8 * (|a| - i)) - 1 && Value(b[i..]) == 0
    decreases |a| - i
  {
    if i < |a| {
      WrappedValue(a, b, i + 1);
      assert a[i..][1..] == a[i + 1..] && b[i..][1..] == b[i + 1..];
      OnesThenOnes(a[i..]);
      ZeroThenZeros(b[i..]);
    }
  }

  lemma {:induction false} CarryIntoFirst(a: seq<bv8>, b: seq<bv8>)
    requires |a| == |b| > 0 && a[0] != 0xff && b[0] == a[0] + 1
    requires Value(a[1..]) == Pow2(8 * (|a| - 1)) - 1 && Value(b[1..]) == 0
    ensures Value(b) == Value(a) + 1
  {
    ValueCons(a);
    ValueCons(b);
    ByteSuccessor(a[0]);
    Distribute(a[0] as nat, Pow2(8 * (|a| - 1)));
  }

  /** Carrying into byte i, the last one that is not all-ones, adds exactly one. */
  lemma {:induction false} CarryStops(a: seq<bv8>, b: seq<bv8>, i: nat)
    requires i < |a| && Wrapped(a, b, i + 1) && a[..i] == b[..i] && a[i] != 0xff && b[i] == a[i] + 1
    ensures Value(b) == Value(a) + 1
  {
    WrappedValue(a, b, i + 1);
    assert a[i..][1..] == a[i + 1..] && b[i..][1..] == b[i + 1..];
    CarryIntoFirst(a[i..], b[i..]);
    assert a == a[..i] + a[i..] && b == b[..i] + b[i..];
    ValueSplit(a[..i], a[i..]);
    ValueSplit(b[..i], b[i..]);
  }

  lemma {:induction false} CarryNeverStops(a: Addr16, b: Addr16)
    requires Wrapped(a, b, 0)
    ensures Value(a) == Pow2(128) - 1 && Value(b) == 0
  {
    WrappedValue(a, b, 0);
    assert a[0..] == a && b[0..] == b;
  }

  lemma {:induction false} CarryStopsBelowTop(a: Addr16, b: Addr16, i: nat)
    requires i < 16 && Wrapped(a, b, i + 1) && a[..i] == b[..i] && a[i] != 0xff && b[i] == a[i] + 1
    ensures Value(b) == Value(a) + 1 && Value(a) < Pow2(128) - 1
  {
    CarryStops(a, b, i);
    ValueBounded(b);
  }

  /** inc6: adds one with carry; overflow exactly at the all-ones address, which wraps to zero. */
  method Inc6(addr: Addr16) returns (next: Addr16, overflow: bool)
    ensures overflow <==> Value(addr) == Pow2(128) - 1
    ensures Value(next) == if overflow then 0 else Value(addr) + 1
  {
    var buf := new bv8[16](i requires 0 <= i < 16 => addr[i]);
    var i := 15;
    while i >= 0
      invariant -1 <= i <= 15
      invariant buf[..i + 1] == addr[..i + 1]
      invariant Wrapped(addr, buf[..], i + 1)
    {
      assert buf[i] == addr[i] && buf[..i] == addr[..i];
      buf[i] := buf[i] + 1;
      ByteSuccessor(addr[i]);
      if buf[i] != 0 {
        next := buf[..];
        assert next[..i] == addr[..i];
        CarryStopsBelowTop(addr, next, i);
        return next, false;
      }
      i := i - 1;
    }
    next := buf[..];
    CarryNeverStops(addr, next);
    return next, true;
  }
}
