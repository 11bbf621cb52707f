/** Powers of two and the divisibility facts the address arithmetic rests on. */
module Powers {

  function Pow2(n: nat): (r: nat)
    ensures r > 0
  {
    if n == 0 then 1 else 2 * Pow2(n - 1)
  }

  lemma {:induction false} Pow2Add(m: nat, n: nat)
    ensures Pow2(m + n) == Pow2(m) * Pow2(n)
  {
    if m > 0 {
      Pow2Add(m - 1, n);
      Twice(Pow2(m - 1), Pow2(n));
      assert Pow2(m + n) == 2 * Pow2(m - 1 + n);
    }
  }

  lemma {:induction false} Twice(a: nat, b: nat)
    ensures 2 * (a * b) == (2 * a) * b
  {
  }

  lemma {:induction false} Pow2Monotone(m: nat, n: nat)
    requires m <= n
    ensures Pow2(m) <= Pow2(n)
    ensures m < n ==> 2 * Pow2(m) <= Pow2(n)
  {
    if m < n {
      Pow2Monotone(m, n - 1);
    }
  }

  /** The word sizes of the source, spelled out. */
  lemma {:induction false} WordSizes()
    ensures Pow2(8) == 0x100 && Pow2(16) == 0x1_0000 && Pow2(32) == 0x1_0000_0000
  {
    assert Pow2(4) == 16;
    assert Pow2(8) == 0x100 by { Pow2Add(4, 4); }
    assert Pow2(16) == 0x1_0000 by { Pow2Add(8, 8); }
    Pow2Add(16, 16);
  }

  lemma {:induction false} DivMod(x: nat, d: nat) returns (q: nat)
    requires d > 0 && x % d == 0
    ensures x == q * d
  {
    q := x / d;
  }

  lemma {:induction false} ModOfMultiple(q: nat, d: nat)
    requires d > 0
    ensures (q * d) % d == 0
  {
    RemainderUnique(q * d, d, q, 0);
  }

  /** Division with remainder has one answer. */
  lemma {:induction false} RemainderUnique(x: nat, d: nat, q: nat, r: nat)
    requires d > 0 && r < d && x == q * d + r
    ensures x / d == q && x % d == r
  {
    var k := x / d;
    assert x == k * d + x % d;
    if k < q {
      MulMonotone(k + 1, q, d);
    } else if q < k {
      MulMonotone(q + 1, k, d);
    }
  }

  lemma {:induction false} MulMonotone(x: int, y: int, u: nat)
    requires x <= y
    ensures x * u <= y * u
  {
    assert (y - x) * u >= 0;
  }

  /** A multiple of a power of two is a multiple of every smaller one. */
  lemma {:induction false} MultipleOfSmallerPower(x: nat, small: nat, big: nat)
    requires small <= big && x % Pow2(big) == 0
    ensures x % Pow2(small) == 0
  {
    var q := DivMod(x, Pow2(big));
    Pow2Add(big - small, small);
    assert x == (q * Pow2(big - small)) * Pow2(small);
    ModOfMultiple(q * Pow2(big - small), Pow2(small));
  }
}
