/**
  The offline IP database: binary-search lookup over sorted ranges, and the
  CIDR decomposition of everything an AS number owns.
*/
module Ipdb {
  import opened Powers
  import opened Cidr
  import opened AddressBytes

  newtype u32 = x: int | 0 <= x < 0x1_0000_0000
  newtype u64 = x: int | 0 <= x < 0x1_0000_0000_0000_0000

  datatype Entry = Entry(start: u32, end: u32, asn: u32, cc: string, org: string)
  datatype Entry6 = Entry6(start: Addr16, end: Addr16, asn: u32, cc: string, org: string)

  /** Both tables as the loader leaves them; NoDB is the nil receiver. */
  datatype DB = NoDB | DB(entries: seq<Entry>, entries6: seq<Entry6>)

  datatype LookupResult = LookupResult(asn: u32, cc: string, org: string)
  const NO_INFO := LookupResult(0, "", "")

  datatype Address = Invalid | V4(n: u32) | V6(bytes: Addr16)

  datatype Prefix = Prefix4(ip: u32, plen: nat) | Prefix6(ip6: Addr16, plen: nat)

  datatype ASInfo = ASInfo(asn: u32, org: string, cc: string, prefixes: seq<Prefix>, ranges: nat)

  // ----- both tables as tables of numeric ranges -----

  datatype Range = Range(first: nat, last: nat, asn: u32, cc: string, org: string) {
    predicate Has(x: int) { first <= x <= last }
  }

  function View4(es: seq<Entry>): (t: seq<Range>)
    ensures |t| == |es|
  {
    seq(|es|, i requires 0 <= i < |es| =>
      Range(es[i].start as nat, es[i].end as nat, es[i].asn, es[i].cc, es[i].org))
  }

  function View6(es: seq<Entry6>): (t: seq<Range>)
    ensures |t| == |es|
  {
    seq(|es|, i requires 0 <= i < |es| =>
      Range(Value(es[i].start), Value(es[i].end), es[i].asn, es[i].cc, es[i].org))
  }

  /** What the loader's sort establishes. */
  ghost predicate Sorted(t: seq<Range>) {
    forall i, j :: 0 <= i < j < |t| ==> t[i].first <= t[j].first
  }

  /** What the data set promises: no empty range, no two ranges share an address. */
  ghost predicate Disjoint(t: seq<Range>) {
    && (forall i :: 0 <= i < |t| ==> t[i].first <= t[i].last)
    && (forall i, j :: 0 <= i < j < |t| ==> t[i].last < t[j].first || t[j].last < t[i].first)
  }

  // ----- Lookup -----

  /** The number of leading ranges that start at or before x. */
  function Starting(t: seq<Range>, x: int): (n: nat)
    ensures n <= |t|
  {
    if t == [] || x < t[0].first then 0 else 1 + Starting(t[1..], x)
  }

  lemma {:induction false} StartingSplits(t: seq<Range>, x: int, n: nat)
    requires Sorted(t) && n <= |t|
    requires forall i :: 0 <= i < n ==> t[i].first <= x
    requires forall i :: n <= i < |t| ==> x < t[i].first
    ensures Starting(t, x) == n
  {
    if n > 0 {
      StartingSplits(t[1..], x, n - 1);
    }
  }

  /** The answer about the rightmost range that starts at or before x. */
  function Answer(t: seq<Range>, x: int): LookupResult {
    var n := Starting(t, x);
    if n == 0 || t[n - 1].last < x || t[n - 1].asn == 0 then NO_INFO
    else LookupResult(t[n - 1].asn, t[n - 1].cc, t[n - 1].org)
  }

  /** The four low bytes of an address. */
  function LowWord(a: Addr16): u32 {
    ValueBounded(a[12..]);
    WordSizes();
    Value(a[12..]) as u32
  }

  predicate Is4In6(a: Addr16) {
    (forall i :: 0 <= i < 10 ==> a[i] == 0) && a[10] == 0xff && a[11] == 0xff
  }

  /** The lookup the two binary searches implement, including the empty-v4-table shortcut. */
  function LookupSpec(db: DB, ip: Address): LookupResult {
    if db.NoDB? || db.entries == [] then NO_INFO
    else match ip
      case Invalid => NO_INFO
      case V4(n) => Answer(View4(db.entries), n as int)
      case V6(b) =>
        if Is4In6(b) then Answer(View4(db.entries), LowWord(b) as int)
        else Answer(View6(db.entries6), Value(b))
  }

  /** sort.Search: the least index at which a monotone predicate holds, or n. */
  method Search(n: nat, f: nat --> bool) returns (i: nat)
    requires forall k :: 0 <= k < n ==> f.requires(k)
    requires forall j, k :: 0 <= j <= k < n && f(j) ==> f(k)
    ensures i <= n
    ensures forall k :: 0 <= k < i ==> !f(k)
    ensures forall k :: i <= k < n ==> f(k)
  {
    var hi := n;
    i := 0;
    while i < hi
      invariant 0 <= i <= hi <= n
      invariant i > 0 ==> !f(i - 1)
      invariant hi < n ==> f(hi)
    {
      var mid := (i + hi) / 2;
      if !f(mid) { i := mid + 1; } else { hi := mid; }
    }
  }

  predicate StartsAfter(es: seq<Entry>, i: nat, needle: u32)
    requires i < |es|
    ensures StartsAfter(es, i, needle) <==> View4(es)[i].first > needle as int
  {
    es[i].start > needle
  }

  predicate StartsAfter6(es: seq<Entry6>, i: nat, needle: Addr16)
    requires i < |es|
    ensures StartsAfter6(es, i, needle) <==> View6(es)[i].first > Value(needle)
  {
    Compare(es[i].start, needle) > 0
  }

  method Lookup(db: DB, ip: Address) returns (r: LookupResult)
    requires db.DB? ==> Sorted(View4(db.entries)) && Sorted(View6(db.entries6))
    ensures r == LookupSpec(db, ip)
  {
    if db.NoDB? || |db.entries| == 0 {
      return NO_INFO;
    }
    if !ip.V4? && !(ip.V6? && Is4In6(ip.bytes)) {
      r := Lookup6(db, ip);
      return;
    }
    var needle := if ip.V4? then ip.n else LowWord(ip.bytes);
    var es := db.entries;
    var past := (i: nat) requires i < |es| => StartsAfter(es, i, needle);
    var lo := Search(|es|, past);
    forall i | 0 <= i < lo ensures View4(es)[i].first <= needle as int { assert !past(i); }
    forall i | lo <= i < |es| ensures View4(es)[i].first > needle as int { assert past(i); }
    StartingSplits(View4(es), needle as int, lo);
    if lo == 0 {
      return NO_INFO;
    }
    var e := db.entries[lo - 1];
    if needle > e.end {
      return NO_INFO;
    }
    if e.asn == 0 {
      return NO_INFO;
    }
    return LookupResult(e.asn, e.cc, e.org);
  }

  method Lookup6(db: DB, ip: Address) returns (r: LookupResult)
    requires db.DB? && Sorted(View6(db.entries6))
    ensures r == if ip.V6? then Answer(View6(db.entries6), Value(ip.bytes)) else NO_INFO
  {
    if |db.entries6| == 0 || !ip.V6? {
      return NO_INFO;
    }
    var needle := ip.bytes;
    var es := db.entries6;
    var past := (i: nat) requires i < |es| => StartsAfter6(es, i, needle);
    var lo := Search(|es|, past);
    forall i | 0 <= i < lo ensures View6(es)[i].first <= Value(needle) { assert !past(i); }
    forall i | lo <= i < |es| ensures View6(es)[i].first > Value(needle) { assert past(i); }
    StartingSplits(View6(es), Value(needle), lo);
    if lo == 0 {
      return NO_INFO;
    }
    var e := db.entries6[lo - 1];
    if Compare(needle, e.end) > 0 {
      return NO_INFO;
    }
    if e.asn == 0 {
      return NO_INFO;
    }
    return LookupResult(e.asn, e.cc, e.org);
  }

  /** A linear scan: the first range that holds x. */
  function Scan(t: seq<Range>, x: int): (i: nat)
    ensures i <= |t|
    ensures i < |t| ==> t[i].Has(x)
    ensures forall j :: 0 <= j < i ==> !t[j].Has(x)
  {
    if t == [] || t[0].Has(x) then 0 else 1 + Scan(t[1..], x)
  }

  /** The range the binary search ends on: its index, or |t| for none. */
  function Hit(t: seq<Range>, x: int): nat {
    var n := Starting(t, x);
    if n == 0 || t[n - 1].last < x then |t| else n - 1
  }

  lemma {:induction false} StartingBounds(t: seq<Range>, x: int)
    requires Sorted(t)
    ensures forall i :: 0 <= i < Starting(t, x) ==> t[i].first <= x
    ensures forall i :: Starting(t, x) <= i < |t| ==> x < t[i].first
  {
    if t != [] && t[0].first <= x {
      StartingBounds(t[1..], x);
      forall i | 0 <= i < Starting(t, x) ensures t[i].first <= x {
        if i > 0 { assert t[i] == t[1..][i - 1]; }
      }
      forall i | Starting(t, x) <= i < |t| ensures x < t[i].first {
        assert t[i] == t[1..][i - 1];
      }
    }
  }

  lemma {:induction false} DisjointHitIsScan(t: seq<Range>, x: int)
    requires Sorted(t) && Disjoint(t)
    ensures Hit(t, x) == Scan(t, x)
  {
    StartingBounds(t, x);
    var i, n := Scan(t, x), Starting(t, x);
    if i < |t| {
      assert t[i].Has(x) && i < n;
    } else if n > 0 {
      assert !t[n - 1].Has(x);
    }
  }

  lemma {:induction false} OverlapMisleads(t: seq<Range>, i: nat, j: nat)
    requires Sorted(t) && i < j < |t| && t[j].first <= t[i].last
    ensures Hit(t, t[j].first) != Scan(t, t[j].first)
  {
    var x := t[j].first;
    StartingBounds(t, x);
    assert t[i].Has(x);
    assert Scan(t, x) <= i && j < Starting(t, x);
  }

  /**
    Over sorted non-empty ranges, the binary search agrees with the linear scan
    everywhere exactly when no two ranges overlap.
  */
  lemma {:induction false} SearchIsScan(t: seq<Range>)
    requires Sorted(t) && forall i :: 0 <= i < |t| ==> t[i].first <= t[i].last
    ensures Disjoint(t) <==> forall x: int :: Hit(t, x) == Scan(t, x)
  {
    if Disjoint(t) {
      forall x: int ensures Hit(t, x) == Scan(t, x) {
        DisjointHitIsScan(t, x);
      }
    } else {
      var i, j :| 0 <= i < j < |t| && t[j].first <= t[i].last && t[i].first <= t[j].last;
      OverlapMisleads(t, i, j);
    }
  }

  // ----- PrefixesForASN -----

  /** The block of addresses a prefix of the given family denotes. */
  ghost predicate Denotes(p: Prefix, b: Block, six: bool) {
    match p
    case Prefix4(ip, plen) => !six && plen <= 32 && b == Block(ip as nat, 32 - plen)
    case Prefix6(ip, plen) => six && plen <= 128 && b == Block(Value(ip), 128 - plen)
  }

  /** The prefixes denote the blocks, one by one, and are all of one family. */
  ghost predicate Lists(ps: seq<Prefix>, bs: seq<Block>, six: bool) {
    |ps| == |bs| && forall i {:trigger Denotes(ps[i], bs[i], six)} :: 0 <= i < |ps| ==> Denotes(ps[i], bs[i], six)
  }

  lemma {:induction false} ListsConcat(ps: seq<Prefix>, bs: seq<Block>, qs: seq<Prefix>, cs: seq<Block>, six: bool)
    requires Lists(ps, bs, six) && Lists(qs, cs, six)
    ensures Lists(ps + qs, bs + cs, six)
  {
    forall i | 0 <= i < |ps + qs|
      ensures Denotes((ps + qs)[i], (bs + cs)[i], six)
    {
      if i < |ps| {
        assert Denotes(ps[i], bs[i], six);
      } else {
        assert Denotes(qs[i - |ps|], cs[i - |ps|], six);
      }
    }
  }

  lemma {:induction false} ListsOne(p: Prefix, b: Block, six: bool)
    requires Denotes(p, b, six)
    ensures Lists([p], [b], six)
  {
    assert forall i :: 0 <= i < 1 ==> Denotes([p][i], [b][i], six);
  }

  /** uint64(1) << k for the shift counts the loop uses. */
  function Shift(k: nat): (r: u64)
    requires k <= 32
    ensures r as nat == Pow2(k) && r <= 0x1_0000_0000
  {
    Pow2Monotone(k, 32);
    WordSizes();
    Pow2(k) as u64
  }

  /** The two tests of the inner loop, in 64-bit arithmetic. */
  method BlockFits4(start: u32, end: u32, newPlen: nat) returns (fits: bool)
    requires newPlen <= 32
    ensures fits <==> Fits(start as nat, end as int, 32 - newPlen)
  {
    var blockSize := Shift(32 - newPlen);
    assert (start as u64 % blockSize) as int == start as int % Pow2(32 - newPlen);
    if start as u64 % blockSize != 0 {
      return false;
    }
    if start as u64 + blockSize - 1 > end as u64 {
      return false;
    }
    return true;
  }

  /** The inner loop of the IPv4 walk: the shortest prefix that is aligned and does not pass end. */
  method ShortestPlen4(start: u32, end: u32) returns (plen: nat)
    requires start <= end
    ensures plen <= 32 && 32 - plen == Grow(start as nat, end as int, 0)
  {
    plen := 32;
    ghost var s, e := start as nat, end as int;
    WordSizes();
    while plen > 0
      invariant 0 <= plen <= 32
      invariant Fits(s, e, 32 - plen)
    {
      var newPlen := plen - 1;
      var fits := BlockFits4(start, end, newPlen);
      if !fits {
        GrowIs(s, e, 32 - plen);
        return;
      }
      plen := newPlen;
    }
    NothingWider(s, e, 32);
    GrowIs(s, e, 32);
  }

  lemma {:induction false} NothingWider(s: nat, e: int, w: nat)
    requires e < Pow2(w)
    ensures !Fits(s, e, w + 1)
  {
  }

  /** The walk has emitted done and stands at s. */
  ghost predicate Walked(done: seq<Block>, s: nat, e: int, goal: seq<Block>) {
    done + Greedy(s, e) == goal
  }

  /** Emitting the grown block at s keeps the walk on course. */
  lemma {:induction false} WalkOn(done: seq<Block>, s: nat, e: int, goal: seq<Block>)
    requires s <= e && Walked(done, s, e, goal)
    ensures Walked(done + [Block(s, Grow(s, e, 0))], s + Pow2(Grow(s, e, 0)), e, goal)
  {
    var b := [Block(s, Grow(s, e, 0))];
    var rest := Greedy(s + Pow2(Grow(s, e, 0)), e);
    assert done + (b + rest) == (done + b) + rest;
  }

  lemma {:induction false} GreedyBounded4(first: u32, end: u32)
    ensures |Greedy(first as nat, end as int)| <= 62
  {
    WordSizes();
    GreedyBounded(32, first as nat, end as int);
  }

  /** The IPv4 walk in 32- and 64-bit words, with its guard against wrapping past the last address. */
  method RangeToPrefixes4(first: u32, end: u32) returns (out: seq<Prefix>)
    ensures Lists(out, Greedy(first as nat, end as int), false)
    ensures |out| <= 62
  {
    GreedyBounded4(first, end);
    out := [];
    var start := first;
    WordSizes();
    ghost var e, done: seq<Block> := end as int, [];
    while start <= end
      invariant Lists(out, done, false)
      invariant Walked(done, start as nat, e, Greedy(first as nat, e))
      decreases e - start as int
    {
      ghost var s := start as nat;
      var plen := ShortestPlen4(start, end);
      WalkOn(done, s, e, Greedy(first as nat, e));
      ListsOne(Prefix4(start, plen), Block(s, 32 - plen), false);
      ListsConcat(out, done, [Prefix4(start, plen)], [Block(s, 32 - plen)], false);
      out := out + [Prefix4(start, plen)];
      done := done + [Block(s, 32 - plen)];
      var step := Shift(32 - plen);
      var next := start as u64 + step;
      if next > 0xffff_ffff {
        break;
      }
      start := next as u32;
    }
  }

  /** The two tests of the inner loop, on bytes. */
  method BlockFits6(cur: Addr16, end: Addr16, newPlen: nat, ghost s: nat, ghost e: int) returns (fits: bool)
    requires newPlen <= 128 && s == Value(cur) && e == Value(end)
    ensures fits <==> Fits(s, e, 128 - newPlen)
  {
    var aligned := Aligned6(cur, newPlen);
    if !aligned {
      return false;
    }
    var last := LastInBlock6(cur, newPlen);
    if Compare(last, end) > 0 {
      return false;
    }
    return true;
  }

  method ShortestPlen6(cur: Addr16, end: Addr16) returns (plen: nat)
    requires Value(cur) <= Value(end)
    ensures plen <= 128 && 128 - plen == Grow(Value(cur), Value(end), 0)
  {
    plen := 128;
    ghost var s, e := Value(cur), Value(end);
    ValueBounded(end);
    while plen > 0
      invariant 0 <= plen <= 128
      invariant Fits(s, e, 128 - plen)
    {
      var newPlen := plen - 1;
      var fits := BlockFits6(cur, end, newPlen, s, e);
      if !fits {
        GrowIs(s, e, 128 - plen);
        return;
      }
      plen := newPlen;
    }
    NothingWider(s, e, 128);
    GrowIs(s, e, 128);
  }

  /** One turn of the IPv6 walk: the prefix to emit and the address after its block. */
  method NextBlock6(cur: Addr16, end: Addr16) returns (plen: nat, next: Addr16, overflow: bool)
    requires Value(cur) <= Value(end)
    ensures plen <= 128 && 128 - plen == Grow(Value(cur), Value(end), 0)
    ensures !overflow ==> Value(next) == Value(cur) + Pow2(128 - plen)
    ensures overflow ==> Value(end) < Value(cur) + Pow2(128 - plen)
  {
    plen := ShortestPlen6(cur, end);
    var last := LastInBlock6(cur, plen);
    next, overflow := Inc6(last);
    ValueBounded(end);
  }

  /** The blocks of an IPv6 range, with their number bounded. */
  ghost function Greedy6(start: Addr16, end: Addr16): (blocks: seq<Block>)
    ensures blocks == Greedy(Value(start), Value(end)) && |blocks| <= 254
  {
    ValueBounded(end);
    GreedyBounded(128, Value(start), Value(end));
    Greedy(Value(start), Value(end))
  }

  lemma {:induction false} WalkBegins(s: nat, e: int, goal: seq<Block>)
    requires goal == Greedy(s, e)
    ensures Walked([], s, e, goal) && Lists([], [], true)
  {
  }

  lemma {:induction false} WalkEnds(out: seq<Prefix>, done: seq<Block>, s: nat, e: int, goal: seq<Block>)
    requires s > e && Walked(done, s, e, goal) && Lists(out, done, true)
    ensures Lists(out, goal, true) && |out| == |goal|
  {
  }

  /** The IPv6 walk over byte addresses refines the same numeric walk. */
  method RangeToPrefixes6(start: Addr16, end: Addr16) returns (out: seq<Prefix>)
    ensures Lists(out, Greedy(Value(start), Value(end)), true)
    ensures |out| <= 254
  {
    hide Lists, Greedy, Walked;
    out := [];
    var cur := start;
    ghost var done: seq<Block> := [];
    ghost var s, e := Value(start), Value(end);
    ghost var goal := Greedy6(start, end);
    WalkBegins(s, e, goal);
    while Compare(cur, end) <= 0
      invariant s == Value(cur)
      invariant Lists(out, done, true)
      invariant Walked(done, s, e, goal)
      decreases e - s
    {
      var plen, next, overflow := NextBlock6(cur, end);
      WalkOn(done, s, e, goal);
      out, done := AppendBlock6(out, done, cur, plen);
      s := s + Pow2(128 - plen);
      if overflow {
        break;
      }
      cur := next;
    }
    WalkEnds(out, done, s, e, goal);
  }

  method AppendBlock6(before: seq<Prefix>, ghost blocks: seq<Block>, cur: Addr16, plen: nat)
    returns (out: seq<Prefix>, ghost done: seq<Block>)
    requires Lists(before, blocks, true) && plen <= 128
    ensures Lists(out, done, true) && done == blocks + [Block(Value(cur), 128 - plen)]
  {
    ListsOne(Prefix6(cur, plen), Block(Value(cur), 128 - plen), true);
    ListsConcat(before, blocks, [Prefix6(cur, plen)], [Block(Value(cur), 128 - plen)], true);
    out, done := before + [Prefix6(cur, plen)], blocks + [Block(Value(cur), 128 - plen)];
  }

  /** The ranges an AS owns, in table order. */
  function OwnedBy(t: seq<Range>, asn: u32): seq<Range> {
    if t == [] then []
    else
      var front, e := OwnedBy(t[..|t| - 1], asn), t[|t| - 1];
      if e.asn == asn then front + [e] else front
  }

  function Decompose(rs: seq<Range>): seq<Block> {
    if rs == [] then []
    else Decompose(rs[..|rs| - 1]) + Greedy(rs[|rs| - 1].first, rs[|rs| - 1].last)
  }

  /** The first non-empty AS organisation, and country, of the ranges. */
  function FirstOrg(rs: seq<Range>): string {
    if rs == [] then ""
    else
      var front := FirstOrg(rs[..|rs| - 1]);
      if front == "" then rs[|rs| - 1].org else front
  }

  function FirstCountry(rs: seq<Range>): string {
    if rs == [] then ""
    else
      var front := FirstCountry(rs[..|rs| - 1]);
      if front == "" then rs[|rs| - 1].cc else front
  }

  /** What PrefixesForASN reports: v4 ranges decomposed first, then v6 ranges. */
  ghost predicate Reports(db: DB, asn: u32, info: ASInfo) {
    if db.NoDB? || asn == 0 then info == ASInfo(asn, "", "", [], 0)
    else
      var own4, own6 := OwnedBy(View4(db.entries), asn), OwnedBy(View6(db.entries6), asn);
      && info.asn == asn
      && info.ranges == |own4 + own6|
      && info.org == FirstOrg(own4 + own6)
      && info.cc == FirstCountry(own4 + own6)
      && exists k :: 0 <= k <= |info.prefixes| && SplitsAt(info.prefixes, k, own4, own6)
  }

  ghost predicate SplitsAt(ps: seq<Prefix>, k: nat, own4: seq<Range>, own6: seq<Range>)
    requires k <= |ps|
  {
    && Lists(ps[..k], Decompose(own4), false)
    && Lists(ps[k..], Decompose(own6), true)
  }

  lemma {:induction false} Snoc(rs: seq<Range>, e: Range)
    ensures Decompose(rs + [e]) == Decompose(rs) + Greedy(e.first, e.last)
    ensures FirstOrg(rs + [e]) == if FirstOrg(rs) == "" then e.org else FirstOrg(rs)
    ensures FirstCountry(rs + [e]) == if FirstCountry(rs) == "" then e.cc else FirstCountry(rs)
  {
    assert (rs + [e])[..|rs|] == rs;
  }

  lemma {:induction false} NextOwned(t: seq<Range>, asn: u32, i: nat)
    requires i < |t|
    ensures OwnedBy(t[..i + 1], asn) == if t[i].asn == asn then OwnedBy(t[..i], asn) + [t[i]] else OwnedBy(t[..i], asn)
  {
    assert t[..i + 1][..i] == t[..i];
  }

  /** The scalar fields after the ranges `own` have been folded in. */
  ghost predicate Summarises(info: ASInfo, asn: u32, own: seq<Range>) {
    && info.asn == asn && info.ranges == |own|
    && info.org == FirstOrg(own) && info.cc == FirstCountry(own)
  }

  /** Counts one more owned range and fills the fields that are still empty. */
  method Count(before: ASInfo, org: string, cc: string, ghost own: seq<Range>, ghost e: Range) returns (info: ASInfo)
    requires Summarises(before, before.asn, own) && e.org == org && e.cc == cc
    ensures Summarises(info, before.asn, own + [e]) && info.prefixes == before.prefixes
  {
    Snoc(own, e);
    info := before.(ranges := before.ranges + 1);
    if info.org == "" {
      info := info.(org := org);
    }
    if info.cc == "" {
      info := info.(cc := cc);
    }
  }

  method Collect4(es: seq<Entry>, asn: u32) returns (info: ASInfo)
    ensures Summarises(info, asn, OwnedBy(View4(es), asn))
    ensures Lists(info.prefixes, Decompose(OwnedBy(View4(es), asn)), false)
  {
    info := ASInfo(asn, "", "", [], 0);
    ghost var t := View4(es);
    for i := 0 to |es|
      invariant Summarises(info, asn, OwnedBy(t[..i], asn))
      invariant Lists(info.prefixes, Decompose(OwnedBy(t[..i], asn)), false)
    {
      var e := es[i];
      ghost var own := OwnedBy(t[..i], asn);
      NextOwned(t, asn, i);
      if e.asn != asn {
        continue;
      }
      Snoc(own, t[i]);
      info := Count(info, e.org, e.cc, own, t[i]);
      var ps := RangeToPrefixes4(e.start, e.end);
      ListsConcat(info.prefixes, Decompose(own), ps, Greedy(t[i].first, t[i].last), false);
      info := info.(prefixes := info.prefixes + ps);
    }
    assert t[..|es|] == t;
  }

  predicate Shows6(e: Entry6, r: Range) {
    r == Range(Value(e.start), Value(e.end), e.asn, e.cc, e.org)
  }

  /** Continues the summary over the v6 table t; more is what it appends to the prefixes. */
  method Collect6(es: seq<Entry6>, start: ASInfo, ghost own4: seq<Range>, ghost t: seq<Range>)
    returns (info: ASInfo, ghost more: seq<Prefix>)
    requires Summarises(start, start.asn, own4)
    requires |t| == |es| && forall i {:trigger Shows6(es[i], t[i])} :: 0 <= i < |es| ==> Shows6(es[i], t[i])
    ensures Summarises(info, start.asn, own4 + OwnedBy(t, start.asn))
    ensures info.prefixes == start.prefixes + more
    ensures Lists(more, Decompose(OwnedBy(t, start.asn)), true)
  {
    hide Summarises, Lists, Decompose, Greedy, OwnedBy, Shows6;
    info, more := start, [];
    ghost var asn := start.asn;
    NothingOwned(t, asn, own4);
    for i := 0 to |es|
      invariant info.asn == asn && Summarises(info, asn, own4 + OwnedBy(t[..i], asn))
      invariant info.prefixes == start.prefixes + more
      invariant Lists(more, Decompose(OwnedBy(t[..i], asn)), true)
    {
      NextOwned(t, asn, i);
      SameOwner(es[i], t[i]);
      if es[i].asn != start.asn {
        continue;
      }
      ghost var own6, r := OwnedBy(t[..i], asn), t[i];
      ghost var ps;
      info, ps := Take6(info, es[i], own4, own6, r);
      ListsNext(more, own6, ps, r);
      assert start.prefixes + more + ps == start.prefixes + (more + ps);
      more := more + ps;
    }
    assert t[..|es|] == t;
  }

  lemma {:induction false} NothingOwned(t: seq<Range>, asn: u32, own: seq<Range>)
    ensures OwnedBy(t[..0], asn) == [] && own + OwnedBy(t[..0], asn) == own
    ensures Lists([], Decompose(OwnedBy(t[..0], asn)), true)
  {
  }

  lemma {:induction false} SameOwner(e: Entry6, r: Range)
    requires Shows6(e, r)
    ensures e.asn == r.asn
  {
  }

  /** The prefixes of one more range behind those so far. */
  lemma {:induction false} ListsNext(more: seq<Prefix>, own: seq<Range>, ps: seq<Prefix>, r: Range)
    requires Lists(more, Decompose(own), true) && Lists(ps, Greedy(r.first, r.last), true)
    ensures Lists(more + ps, Decompose(own + [r]), true)
  {
    hide Lists, Decompose, Greedy;
    Snoc(own, r);
    ListsConcat(more, Decompose(own), ps, Greedy(r.first, r.last), true);
  }

  method Take6(before: ASInfo, e: Entry6, ghost own4: seq<Range>, ghost own6: seq<Range>, ghost r: Range)
    returns (info: ASInfo, ghost ps: seq<Prefix>)
    requires Summarises(before, before.asn, own4 + own6)
    requires Shows6(e, r)
    ensures info.asn == before.asn && Summarises(info, before.asn, own4 + (own6 + [r]))
    ensures info.prefixes == before.prefixes + ps
    ensures Lists(ps, Greedy(r.first, r.last), true)
  {
    assert own4 + own6 + [r] == own4 + (own6 + [r]);
    info := Count(before, e.org, e.cc, own4 + own6, r);
    var found := RangeToPrefixes6(e.start, e.end);
    ps := found;
    info := info.(prefixes := info.prefixes + found);
  }

  method PrefixesForASN(db: DB, asn: u32) returns (info: ASInfo)
    ensures Reports(db, asn, info)
  {
    if db.NoDB? || asn == 0 {
      return ASInfo(asn, "", "", [], 0);
    }
    var four := Collect4(db.entries, asn);
    ghost var six;
    info, six := Collect6(db.entries6, four, OwnedBy(View4(db.entries), asn), View6(db.entries6));
    assert info.prefixes[..|four.prefixes|] == four.prefixes && info.prefixes[|four.prefixes|..] == six;
    assert SplitsAt(info.prefixes, |four.prefixes|,
                    OwnedBy(View4(db.entries), asn), OwnedBy(View6(db.entries6), asn));
  }

  // ----- the lookup and the prefix list answer the same question -----

  function NumberOf(ip: Address): nat {
    match ip
    case Invalid => 0
    case V4(n) => n as nat
    case V6(b) => if Is4In6(b) then LowWord(b) as nat else Value(b)
  }

  predicate IsSix(ip: Address) { ip.V6? && !Is4In6(ip.bytes) }

  ghost predicate Contains(p: Prefix, ip: Address) {
    !ip.Invalid? && exists b :: Denotes(p, b, IsSix(ip)) && b.Holds(NumberOf(ip))
  }

  ghost predicate Listed(ps: seq<Prefix>, ip: Address) {
    exists i :: 0 <= i < |ps| && Contains(ps[i], ip)
  }

  /** Some range of the list holds x. */
  ghost predicate Has(rs: seq<Range>, x: int) {
    exists k :: 0 <= k < |rs| && rs[k].Has(x)
  }

  lemma {:induction false} HasSnoc(rs: seq<Range>, e: Range, x: int)
    ensures Has(rs + [e], x) <==> Has(rs, x) || e.Has(x)
  {
    if Has(rs, x) {
      var k :| 0 <= k < |rs| && rs[k].Has(x);
      assert (rs + [e])[k].Has(x);
    }
    if e.Has(x) {
      assert (rs + [e])[|rs|].Has(x);
    }
  }

  lemma {:induction false} DecomposeHolds(rs: seq<Range>, x: int)
    requires forall i :: 0 <= i < |rs| ==> rs[i].first <= rs[i].last
    ensures Holding(Decompose(rs), x) <==> Has(rs, x)
  {
    if rs != [] {
      var front, e := rs[..|rs| - 1], rs[|rs| - 1];
      DecomposeHolds(front, x);
      GreedyExact(e.first, e.last);
      HoldingConcat(Decompose(front), Greedy(e.first, e.last), x);
      assert Holding(Greedy(e.first, e.last), x) <==> e.Has(x);
      HasSnoc(front, e, x);
      assert rs == front + [e];
    }
  }

  lemma {:induction false} HoldingConcat(a: seq<Block>, b: seq<Block>, x: int)
    ensures Holding(a + b, x) <==> Holding(a, x) || Holding(b, x)
  {
    if Holding(b, x) {
      var i :| 0 <= i < |b| && b[i].Holds(x);
      assert (a + b)[|a| + i] == b[i];
    }
    if Holding(a, x) {
      var i :| 0 <= i < |a| && a[i].Holds(x);
      assert (a + b)[i] == a[i];
    }
  }

  lemma {:induction false} OwnedByMembers(t: seq<Range>, asn: u32)
    ensures forall r :: r in OwnedBy(t, asn) <==> r in t && r.asn == asn
  {
    if t != [] {
      OwnedByMembers(t[..|t| - 1], asn);
      assert t == t[..|t| - 1] + [t[|t| - 1]];
    }
  }

  /** In disjoint ranges the scan stops at the only range that holds x. */
  lemma {:induction false} OwnerIsScanned(t: seq<Range>, asn: u32, x: int)
    requires Disjoint(t)
    ensures Has(OwnedBy(t, asn), x) <==> Scan(t, x) < |t| && t[Scan(t, x)].asn == asn
  {
    var own, i := OwnedBy(t, asn), Scan(t, x);
    OwnedByMembers(t, asn);
    if Has(own, x) {
      var k :| 0 <= k < |own| && own[k].Has(x);
      assert own[k] in own;
      var j :| 0 <= j < |t| && t[j] == own[k];
      assert i == j;
    }
    if i < |t| && t[i].asn == asn {
      assert t[i] in own;
      var k :| 0 <= k < |own| && own[k] == t[i];
      assert own[k].Has(x);
    }
  }

  /** In one table: the binary search names asn exactly where asn's decomposed ranges lie. */
  lemma {:induction false} AnswerIsOwnership(t: seq<Range>, asn: u32, x: int)
    requires Sorted(t) && Disjoint(t) && asn != 0
    ensures Answer(t, x).asn == asn <==> Holding(Decompose(OwnedBy(t, asn)), x)
  {
    var own := OwnedBy(t, asn);
    OwnedByMembers(t, asn);
    forall i | 0 <= i < |own| ensures own[i].first <= own[i].last { assert own[i] in own; }
    DecomposeHolds(own, x);
    OwnerIsScanned(t, asn, x);
    DisjointHitIsScan(t, x);
  }

  lemma {:induction false} PrefixesHold(ps: seq<Prefix>, bs: seq<Block>, six: bool, ip: Address)
    requires Lists(ps, bs, six) && !ip.Invalid?
    ensures Listed(ps, ip) <==> six == IsSix(ip) && Holding(bs, NumberOf(ip))
  {
    if Listed(ps, ip) {
      var i :| 0 <= i < |ps| && Contains(ps[i], ip);
      assert Denotes(ps[i], bs[i], six);
    }
    if six == IsSix(ip) && Holding(bs, NumberOf(ip)) {
      var i :| 0 <= i < |bs| && bs[i].Holds(NumberOf(ip));
      assert Denotes(ps[i], bs[i], six);
      assert Contains(ps[i], ip);
    }
  }

  lemma {:induction false} ListedSplit(ps: seq<Prefix>, k: nat, ip: Address)
    requires k <= |ps|
    ensures Listed(ps, ip) <==> Listed(ps[..k], ip) || Listed(ps[k..], ip)
  {
    if Listed(ps, ip) {
      var i :| 0 <= i < |ps| && Contains(ps[i], ip);
      if i < k { assert Contains(ps[..k][i], ip); } else { assert Contains(ps[k..][i - k], ip); }
    }
  }

  /**
    Looking an address up names the AS exactly when the address lies in one of
    the prefixes listed for that AS, for both families. The one exception is
    the empty IPv4 table: then every lookup answers "no info", even where
    IPv6 prefixes are listed.
  */
  lemma {:induction false} LookupMatchesPrefixes(db: DB, asn: u32, info: ASInfo, ip: Address)
    requires db.DB? && asn != 0 && Reports(db, asn, info)
    requires Sorted(View4(db.entries)) && Disjoint(View4(db.entries))
    requires Sorted(View6(db.entries6)) && Disjoint(View6(db.entries6))
    ensures LookupSpec(db, ip).asn == asn <==> db.entries != [] && Listed(info.prefixes, ip)
  {
    var t4, t6 := View4(db.entries), View6(db.entries6);
    var own4, own6 := OwnedBy(t4, asn), OwnedBy(t6, asn);
    var k :| 0 <= k <= |info.prefixes| && SplitsAt(info.prefixes, k, own4, own6);
    ListedSplit(info.prefixes, k, ip);
    if !ip.Invalid? {
      AnswerIsOwnership(if IsSix(ip) then t6 else t4, asn, NumberOf(ip));
      PrefixesHold(info.prefixes[..k], Decompose(own4), false, ip);
      PrefixesHold(info.prefixes[k..], Decompose(own6), true, ip);
    }
  }

  // ----- whose country and organisation are told -----

  /** The one range that holds the number is what is told of it, if it belongs to an AS at all. */
  lemma {:induction false} HolderIsTold(t: seq<Range>, x: int)
    requires Sorted(t) && Disjoint(t)
    ensures forall i :: 0 <= i < |t| && t[i].Has(x) ==>
              Answer(t, x) == if t[i].asn == 0 then NO_INFO else LookupResult(t[i].asn, t[i].cc, t[i].org)
    ensures (forall i :: 0 <= i < |t| ==> !t[i].Has(x)) ==> Answer(t, x) == NO_INFO
  {
    StartingBounds(t, x);
    var n := Starting(t, x);
    forall i | 0 <= i < |t| && t[i].Has(x) ensures i == n - 1 {
      assert i < n;
      var one, other := t[i], t[n - 1];
      assert i != n - 1 ==> one.last < other.first || other.last < one.first;
    }
    assert n > 0 && t[n - 1].last >= x ==> t[n - 1].Has(x);
  }

  /** What Lookup tells of an IPv4 address is what stands in the table entry that holds it. */
  lemma {:induction false} EntryIsTold(db: DB, ip: Address, i: nat)
    requires db.DB? && Sorted(View4(db.entries)) && Disjoint(View4(db.entries)) && i < |db.entries|
    requires ip.V4? && db.entries[i].start <= ip.n <= db.entries[i].end && db.entries[i].asn != 0
    ensures LookupSpec(db, ip) == LookupResult(db.entries[i].asn, db.entries[i].cc, db.entries[i].org)
  {
    HolderIsTold(View4(db.entries), ip.n as int);
    assert View4(db.entries)[i].Has(ip.n as int);
  }

  /** Ten zero bytes and two full ones, then an IPv4 address. */
  predicate Mapped(a: Addr16) {
    a[..10] == [0, 0, 0, 0, 0, 0, 0, 0, 0, 0] && a[10] == 0xff && a[11] == 0xff
  }

  lemma {:induction false} MappedIs4In6(a: Addr16)
    ensures Mapped(a) <==> Is4In6(a)
  {
    var zeros: seq<bv8> := [0, 0, 0, 0, 0, 0, 0, 0, 0, 0];
    assert forall i :: 0 <= i < 10 ==> zeros[i] == 0 && a[..10][i] == a[i];
    if Is4In6(a) { assert a[..10] == zeros; }
  }

  lemma {:induction false} FourOctets(a: Addr16)
    ensures LowWord(a) as nat
            == 0x100_0000 * (a[12] as nat) + 0x1_0000 * (a[13] as nat) + 0x100 * (a[14] as nat) + a[15] as nat
  {
    var w := a[12..];
    assert w[..3][..2] == w[..2] && w[..2][..1] == w[..1] && w[..1][..0] == [];
    assert Value(w[..1]) == w[0] as nat;
    assert Value(w[..2]) == 256 * Value(w[..1]) + w[1] as nat;
    assert Value(w[..3]) == 256 * Value(w[..2]) + w[2] as nat;
    assert Value(w) == 256 * Value(w[..3]) + w[3] as nat;
  }

  /** An IPv4 address written as an IPv6 one is looked up as the IPv4 address it is. */
  lemma {:induction false} MappedIsIPv4(db: DB, a: Addr16, n: u32)
    requires Mapped(a)
    requires n as nat
             == 0x100_0000 * (a[12] as nat) + 0x1_0000 * (a[13] as nat) + 0x100 * (a[14] as nat) + a[15] as nat
    ensures LookupSpec(db, V6(a)) == LookupSpec(db, V4(n))
  {
    hide LowWord, Answer;
    MappedIs4In6(a);
    FourOctets(a);
  }

  /** The same of an IPv6 address, when there is any IPv4 entry. */
  lemma {:induction false} EntryIsTold6(db: DB, ip: Address, i: nat)
    requires db.DB? && Sorted(View6(db.entries6)) && Disjoint(View6(db.entries6)) && i < |db.entries6|
    requires ip.V6? && !Mapped(ip.bytes) && db.entries != [] && db.entries6[i].asn != 0
    requires Value(db.entries6[i].start) <= Value(ip.bytes) <= Value(db.entries6[i].end)
    ensures LookupSpec(db, ip) == LookupResult(db.entries6[i].asn, db.entries6[i].cc, db.entries6[i].org)
  {
    hide Value;
    MappedIs4In6(ip.bytes);
    HolderIsTold(View6(db.entries6), Value(ip.bytes));
    assert View6(db.entries6)[i].Has(Value(ip.bytes));
  }

  function OrgOf(r: Range): string { r.org }

  function CountryOf(r: Range): string { r.cc }

  /** The first that is not empty. */
  ghost predicate FirstGiven(rs: seq<Range>, field: Range -> string, text: string) {
    if text == "" then forall i :: 0 <= i < |rs| ==> field(rs[i]) == ""
    else exists i :: 0 <= i < |rs| && field(rs[i]) == text && forall k :: 0 <= k < i ==> field(rs[k]) == ""
  }

  /** The report's organisation and country are the first ones given. */
  lemma {:induction false} FirstsAreGiven(rs: seq<Range>)
    ensures FirstGiven(rs, OrgOf, FirstOrg(rs)) && FirstGiven(rs, CountryOf, FirstCountry(rs))
  {
    if rs != [] {
      var front := rs[..|rs| - 1];
      FirstsAreGiven(front);
      GivenSnoc(rs, OrgOf, FirstOrg(front));
      GivenSnoc(rs, CountryOf, FirstCountry(front));
    }
  }

  lemma {:induction false} GivenSnoc(rs: seq<Range>, field: Range -> string, text: string)
    requires rs != [] && FirstGiven(rs[..|rs| - 1], field, text)
    ensures FirstGiven(rs, field, if text == "" then field(rs[|rs| - 1]) else text)
  {
    var front, n := rs[..|rs| - 1], |rs| - 1;
    assert forall i :: 0 <= i < n ==> front[i] == rs[i];
    if text == "" {
      assert field(rs[n]) == field(rs[n]) && forall k :: 0 <= k < n ==> field(front[k]) == "";
    } else {
      var i :| 0 <= i < n && field(front[i]) == text && forall k :: 0 <= k < i ==> field(front[k]) == "";
      assert field(rs[i]) == text;
    }
  }
}
