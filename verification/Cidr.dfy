/**
  CIDR blocks over the natural numbers, and the greedy largest-aligned-block
  decomposition of an inclusive range. The width of the address family appears
  only in the bound on the number of blocks; both concrete loops of the IP
  database are proved equal to `Greedy`.
*/
module Cidr {
  import opened Powers

  /** The block of 2^host addresses that starts at base. */
  datatype Block = Block(base: nat, host: nat) {
    function Last(): int { base + Pow2(host) - 1 }

    predicate Aligned() { base % Pow2(host) == 0 }

    predicate Holds(x: int) { base <= x <= Last() }

    predicate Inside(s: int, e: int) { s <= base && Last() <= e }
  }

  /** An aligned block of 2^h addresses may start at s without passing e. */
  predicate Fits(s: nat, e: int, h: nat) {
    s % Pow2(h) == 0 && s + Pow2(h) - 1 <= e
  }

  /** Doubles the block while the doubled block still fits. */
  function Grow(s: nat, e: int, h: nat): (r: nat)
    requires Fits(s, e, h)
    ensures h <= r && Fits(s, e, r) && !Fits(s, e, r + 1)
    decreases e + 1 - Pow2(h)
  {
    if Fits(s, e, h + 1) then Grow(s, e, h + 1) else h
  }

  function Greedy(s: nat, e: int): (blocks: seq<Block>)
    decreases e - s + 1
  {
    if s > e then []
    else
      var h := Grow(s, e, 0);
      [Block(s, h)] + Greedy(s + Pow2(h), e)
  }

  // ----- exact, ascending, disjoint -----

  ghost predicate Contiguous(blocks: seq<Block>, s: int, e: int) {
    && (blocks == [] ==> s == e + 1)
    && (blocks != [] ==> blocks[0].base == s && blocks[|blocks| - 1].Last() == e)
    && (forall i :: 0 <= i < |blocks| ==> blocks[i].Aligned())
    && (forall i, j :: 0 <= i && j == i + 1 && j < |blocks| ==> blocks[j].base == blocks[i].Last() + 1)
  }

  lemma {:induction false} GreedyContiguous(s: nat, e: int)
    requires s <= e + 1
    ensures Contiguous(Greedy(s, e), s, e)
    decreases e - s + 1
  {
    if s <= e {
      GreedyContiguous(s + Pow2(Grow(s, e, 0)), e);
    }
  }

  lemma {:induction false} ContiguousAscends(blocks: seq<Block>, s: int, e: int, i: nat, j: nat)
    requires Contiguous(blocks, s, e) && i < j < |blocks|
    ensures blocks[i].Last() < blocks[j].base
    decreases j
  {
    if i + 1 < j {
      ContiguousAscends(blocks, s, e, i, j - 1);
    }
    assert blocks[j].base == blocks[j - 1].Last() + 1;
  }

  lemma {:induction false} ContiguousHits(blocks: seq<Block>, s: int, e: int, x: int) returns (i: nat)
    requires Contiguous(blocks, s, e) && s <= x <= e
    ensures i < |blocks| && blocks[i].Holds(x)
  {
    i := 0;
    while x > blocks[i].Last()
      invariant i < |blocks| && blocks[i].base <= x
      decreases |blocks| - i
    {
      i := i + 1;
      assert blocks[i].base == blocks[i - 1].Last() + 1;
    }
  }

  /** Some block of the list holds x. */
  ghost predicate Holding(blocks: seq<Block>, x: int) {
    exists i :: 0 <= i < |blocks| && blocks[i].Holds(x)
  }

  /** The blocks of a range are aligned, ascend without touching twice, and hold exactly the range. */
  lemma {:induction false} GreedyExact(s: nat, e: int)
    requires s <= e + 1
    ensures forall i :: 0 <= i < |Greedy(s, e)| ==> Greedy(s, e)[i].Aligned() && Greedy(s, e)[i].Inside(s, e)
    ensures forall i, j :: 0 <= i < j < |Greedy(s, e)| ==> Greedy(s, e)[i].Last() < Greedy(s, e)[j].base
    ensures forall x :: Holding(Greedy(s, e), x) <==> s <= x <= e
  {
    var g := Greedy(s, e);
    GreedyContiguous(s, e);
    forall i, j | 0 <= i < j < |g|
      ensures g[i].Last() < g[j].base
    {
      ContiguousAscends(g, s, e, i, j);
    }
    forall i | 0 <= i < |g|
      ensures g[i].Inside(s, e)
    {
      if 0 < i { ContiguousAscends(g, s, e, 0, i); }
      if i < |g| - 1 { ContiguousAscends(g, s, e, i, |g| - 1); }
    }
    forall x
      ensures Holding(g, x) <==> s <= x <= e
    {
      if s <= x <= e {
        var i := ContiguousHits(g, s, e, x);
      }
    }
  }

  // ----- minimality -----

  /** Aligned blocks are laminar: a smaller one is inside a bigger one or apart from it. */
  lemma {:induction false} Laminar(a: Block, b: Block)
    requires a.Aligned() && b.Aligned() && a.host <= b.host
    ensures a.Inside(b.base, b.Last()) || a.Last() < b.base || b.Last() < a.base
  {
    var u, m := Pow2(a.host), Pow2(b.host - a.host);
    var p := DivMod(a.base, u);
    var q := DivMod(b.base, Pow2(b.host));
    Pow2Add(b.host - a.host, a.host);
    MulAssociates(q, m, u);
    LaminarUnits(p, q * m, m, u);
  }

  lemma {:induction false} MulAssociates(x: int, y: int, z: int)
    ensures x * (y * z) == (x * y) * z
  {
  }

  /** The same in units of the smaller block: [p, p+1) against [from, from+m). */
  lemma {:induction false} LaminarUnits(p: nat, from: nat, m: nat, u: nat)
    ensures
      || (from * u <= p * u && p * u + u <= from * u + m * u)
      || p * u + u <= from * u
      || from * u + m * u <= p * u
  {
    assert (p + 1) * u == p * u + u;
    assert (from + m) * u == from * u + m * u;
    if p < from {
      MulMonotone(p + 1, from, u);
    } else if p >= from + m {
      MulMonotone(from + m, p, u);
    } else {
      MulMonotone(from, p, u);
      MulMonotone(p + 1, from + m, u);
    }
  }

  /** No aligned block that starts at s and stays within e is bigger than the grown one. */
  lemma {:induction false} GrowIsLargest(s: nat, e: int, h: nat)
    requires Fits(s, e, 0) && Fits(s, e, h)
    ensures h <= Grow(s, e, 0)
  {
    var r := Grow(s, e, 0);
    if h > r {
      MultipleOfSmallerPower(s, r + 1, h);
      Pow2Monotone(r + 1, h);
      assert false;
    }
  }

  ghost predicate Held(cover: set<Block>, x: int) {
    exists b :: b in cover && b.Holds(x)
  }

  /** A set of CIDR blocks that denotes exactly s..e. */
  ghost predicate Covers(cover: set<Block>, s: int, e: int) {
    && (forall b :: b in cover ==> b.Aligned())
    && (forall x: int :: Held(cover, x) <==> s <= x <= e)
  }

  lemma {:induction false} CoverStaysInside(cover: set<Block>, s: int, e: int, b: Block)
    requires Covers(cover, s, e) && b in cover
    ensures b.Inside(s, e)
  {
    assert b.Holds(b.base) && b.Holds(b.Last());
    assert Held(cover, b.base) && Held(cover, b.Last());
  }

  /** Every block of any cover is inside the first greedy block or beyond it. */
  lemma {:induction false} FirstBlockAbsorbs(s: nat, e: int, b: Block)
    requires s <= e && b.Aligned() && b.Inside(s, e)
    ensures b.Last() < s + Pow2(Grow(s, e, 0)) || s + Pow2(Grow(s, e, 0)) <= b.base
  {
    var g := Block(s, Grow(s, e, 0));
    if b.host <= g.host {
      Laminar(b, g);
    } else {
      Laminar(g, b);
      if g.Inside(b.base, b.Last()) {
        assert b.base == s;
        GrowIsLargest(s, e, b.host);
        assert false;
      }
    }
  }

  /** What is left of a cover past the first greedy block covers what is left of the range. */
  lemma {:induction false} RestCovers(s: nat, e: int, cover: set<Block>, rest: set<Block>)
    requires s <= e && Covers(cover, s, e)
    requires rest == set b | b in cover && s + Pow2(Grow(s, e, 0)) <= b.base
    ensures Covers(rest, s + Pow2(Grow(s, e, 0)), e)
  {
    var next := s + Pow2(Grow(s, e, 0));
    forall x: int
      ensures Held(rest, x) <==> next <= x <= e
    {
      if next <= x <= e {
        assert Held(cover, x);
        var b :| b in cover && b.Holds(x);
        CoverStaysInside(cover, s, e, b);
        FirstBlockAbsorbs(s, e, b);
        assert b in rest;
      }
      if Held(rest, x) {
        var b :| b in rest && b.Holds(x);
        CoverStaysInside(cover, s, e, b);
      }
    }
  }

  /** No CIDR cover of the same range has fewer blocks than the greedy walk. */
  lemma {:induction false} GreedyMinimal(s: nat, e: int, cover: set<Block>)
    requires Covers(cover, s, e)
    ensures |Greedy(s, e)| <= |cover|
    decreases e - s + 1
  {
    if s <= e {
      var next := s + Pow2(Grow(s, e, 0));
      var rest := set b | b in cover && next <= b.base;
      RestCovers(s, e, cover, rest);
      GreedyMinimal(next, e, rest);
      assert Held(cover, s);
      var first :| first in cover && first.Holds(s);
      ProperSubsetIsSmaller(rest, cover, first);
    }
  }

  lemma {:induction false} ProperSubsetIsSmaller(small: set<Block>, big: set<Block>, extra: Block)
    requires small <= big && extra in big && extra !in small
    ensures |small| < |big|
  {
    assert big == small + (big - small);
    assert extra in big - small;
  }

  // ----- the bound -----

  /** One more than the largest block count of a range inside an aligned block of 2^h addresses. */
  function Bound(h: nat): nat {
    if h <= 1 then 1 else 2 * (h - 1)
  }

  /** A range that starts where its enclosing block starts needs at most one block a level. */
  lemma {:induction false} HeadCover(base: nat, h: nat, e: int) returns (cover: set<Block>)
    requires base % Pow2(h) == 0 && base <= e < base + Pow2(h)
    ensures Covers(cover, base, e) && |cover| <= if e == base + Pow2(h) - 1 then 1 else h
    decreases h
  {
    if e == base + Pow2(h) - 1 {
      cover := {Block(base, h)};
      OneBlockCovers(Block(base, h));
    } else {
      MultipleOfSmallerPower(base, h - 1, h);
      var mid := base + Pow2(h - 1);
      if e < mid {
        cover := HeadCover(base, h - 1, e);
      } else {
        MidAligned(base, h);
        var tail := HeadCover(mid, h - 1, e);
        OneBlockCovers(Block(base, h - 1));
        cover := Join({Block(base, h - 1)}, tail, base, mid, e);
      }
    }
  }

  /** The mirror image: a range that ends where its enclosing block ends. */
  lemma {:induction false} TailCover(base: nat, h: nat, s: int) returns (cover: set<Block>)
    requires base % Pow2(h) == 0 && base <= s < base + Pow2(h)
    ensures Covers(cover, s, base + Pow2(h) - 1) && |cover| <= if s == base then 1 else h
    decreases h
  {
    if s == base {
      cover := {Block(base, h)};
      OneBlockCovers(Block(base, h));
    } else {
      MultipleOfSmallerPower(base, h - 1, h);
      MidAligned(base, h);
      var mid := base + Pow2(h - 1);
      if s >= mid {
        cover := TailCover(mid, h - 1, s);
      } else {
        var head := TailCover(base, h - 1, s);
        OneBlockCovers(Block(mid, h - 1));
        cover := Join(head, {Block(mid, h - 1)}, s, mid, base + Pow2(h) - 1);
      }
    }
  }

  lemma {:induction false} SmallCover(base: nat, h: nat, s: int, e: int) returns (cover: set<Block>)
    requires base % Pow2(h) == 0 && base <= s <= e < base + Pow2(h)
    ensures Covers(cover, s, e) && |cover| <= Bound(h)
    decreases h
  {
    if s == base {
      cover := HeadCover(base, h, e);
    } else if e == base + Pow2(h) - 1 {
      cover := TailCover(base, h, s);
    } else {
      MultipleOfSmallerPower(base, h - 1, h);
      MidAligned(base, h);
      var mid := base + Pow2(h - 1);
      if e < mid {
        cover := SmallCover(base, h - 1, s, e);
      } else if s >= mid {
        cover := SmallCover(mid, h - 1, s, e);
      } else {
        var left := TailCover(base, h - 1, s);
        var right := HeadCover(mid, h - 1, e);
        cover := Join(left, right, s, mid, e);
      }
    }
  }

  lemma {:induction false} MidAligned(base: nat, h: nat)
    requires h > 0 && base % Pow2(h) == 0
    ensures (base + Pow2(h - 1)) % Pow2(h - 1) == 0
  {
    var q := DivMod(base, Pow2(h));
    assert base + Pow2(h - 1) == (2 * q + 1) * Pow2(h - 1);
    ModOfMultiple(2 * q + 1, Pow2(h - 1));
  }

  lemma {:induction false} OneBlockCovers(b: Block)
    requires b.Aligned()
    ensures Covers({b}, b.base, b.Last())
  {
    forall x: int ensures Held({b}, x) <==> b.base <= x <= b.Last() {
      if b.Holds(x) { assert b in {b}; }
    }
  }

  lemma {:induction false} Join(left: set<Block>, right: set<Block>, s: int, mid: int,
      e: int) returns (cover: set<Block>)
    requires s <= mid <= e + 1 && Covers(left, s, mid - 1) && Covers(right, mid, e)
    ensures Covers(cover, s, e) && |cover| <= |left| + |right|
  {
    cover := left + right;
    forall x: int ensures Held(cover, x) <==> s <= x <= e {
      assert Held(cover, x) <==> Held(left, x) || Held(right, x);
    }
    assert |left + right| == |left| + |right| - |left * right|;
  }

  /** No range of w-bit addresses splits into more than 2w - 2 blocks: 62 for IPv4, 254 for IPv6. */
  lemma {:induction false} GreedyBounded(w: nat, s: nat, e: int)
    requires 2 <= w && e < Pow2(w)
    ensures |Greedy(s, e)| <= 2 * w - 2
  {
    if s <= e {
      var cover := SmallCover(0, w, s, e);
      GreedyMinimal(s, e, cover);
    }
  }

  lemma {:induction false} GrowIs(s: nat, e: int, h: nat)
    requires Fits(s, e, h) && !Fits(s, e, h + 1)
    ensures Fits(s, e, 0) && Grow(s, e, 0) == h
  {
    Pow2Monotone(0, h);
    MultipleOfSmallerPower(s, 0, h);
    GrowIsLargest(s, e, h);
    var r := Grow(s, e, 0);
    if r > h {
      MultipleOfSmallerPower(s, h + 1, r);
      Pow2Monotone(h + 1, r);
      assert false;
    }
  }

  lemma {:induction false} OddMultiple(q: nat, h: nat)
    ensures (q * Pow2(h)) % Pow2(h) == 0
    ensures q % 2 == 1 ==> (q * Pow2(h)) % Pow2(h + 1) != 0
  {
    ModOfMultiple(q, Pow2(h));
    if q % 2 == 1 {
      assert q == 2 * (q / 2) + 1;
      assert q * Pow2(h) == (q / 2) * Pow2(h + 1) + Pow2(h);
      RemainderUnique(q * Pow2(h), Pow2(h + 1), q / 2, Pow2(h));
    }
  }

  lemma {:induction false} ComplementAligned(w: nat, j: nat)
    requires j <= w
    ensures Pow2(j) <= Pow2(w) && (Pow2(w) - Pow2(j)) % Pow2(j) == 0
  {
    Pow2Monotone(j, w);
    Pow2Add(w - j, j);
    MinusOneTimes(Pow2(w - j), Pow2(j));
    ModOfMultiple(Pow2(w - j) - 1, Pow2(j));
  }

  lemma {:induction false} MinusOneTimes(x: nat, y: nat)
    ensures x * y - y == (x - 1) * y
  {
  }

  lemma {:induction false} GreedyStep(s: nat, e: int, h: nat, next: nat)
    requires Fits(s, e, h) && !Fits(s, e, h + 1) && next == s + Pow2(h)
    ensures |Greedy(s, e)| == 1 + |Greedy(next, e)|
  {
    GrowIs(s, e, h);
  }

  /** The descending half of the worst range: 2^w - 2^j up to 2^w - 2 takes j blocks. */
  lemma {:induction false} DescendingCount(w: nat, j: nat, s: nat)
    requires j < w && s == Pow2(w) - Pow2(j)
    ensures |Greedy(s, Pow2(w) - 2)| == j
    decreases j
  {
    if j > 0 {
      ComplementAligned(w, j);
      MultipleOfSmallerPower(s, j - 1, j);
      var next := s + Pow2(j - 1);
      GreedyStep(s, Pow2(w) - 2, j - 1, next);
      DescendingCount(w, j - 1, next);
    }
  }

  lemma {:induction false} PowerStartsItsOwnBlock(w: nat, k: nat)
    requires k + 1 < w
    ensures Fits(Pow2(k), Pow2(w) - 2, k) && !Fits(Pow2(k), Pow2(w) - 2, k + 1)
  {
    Pow2Monotone(k + 1, w - 1);
    OddMultiple(1, k);
    assert Pow2(w) == 2 * Pow2(w - 1) && Pow2(k + 1) == 2 * Pow2(k);
  }

  /** The ascending half: 2^k, 2^(k+1), ... each start a block of their own size. */
  lemma {:induction false} AscendingCount(w: nat, k: nat, s: nat)
    requires k < w && s == Pow2(k)
    ensures |Greedy(s, Pow2(w) - 2)| == 2 * w - 2 - k
    decreases w - k
  {
    if k == w - 1 {
      DescendingCount(w, w - 1, s);
    } else {
      PowerStartsItsOwnBlock(w, k);
      var next := Pow2(k + 1);
      GreedyStep(s, Pow2(w) - 2, k, next);
      AscendingCount(w, k + 1, next);
    }
  }

  /** The bound is met: all but the first and last address of the space takes 2w - 2 blocks. */
  lemma {:induction false} BoundIsMet(w: nat)
    requires 2 <= w
    ensures |Greedy(1, Pow2(w) - 2)| == 2 * w - 2
  {
    AscendingCount(w, 0, 1);
  }
}
