/** The 32-bit operations of packet marks, and the laws that the mark layout rests on. */
module Bits {

  function And(a: bv32, b: bv32): bv32 { a & b }

  function Or(a: bv32, b: bv32): bv32 { a | b }

  /** a without the bits of b. */
  function Drop(a: bv32, b: bv32): bv32 { a & !b }

  /** No bit in common. */
  predicate Apart(a: bv32, b: bv32) { And(a, b) == 0 }

  /** Every bit of the mark is a bit of the mask. */
  predicate Fits(mark: bv32, mask: bv32) { Drop(mark, mask) == 0 }

  lemma {:induction false} ApartCommutes(a: bv32, b: bv32)
    ensures Apart(a, b) <==> Apart(b, a)
  {
  }

  /** Setting a mark leaves the fields apart from its mask alone. */
  lemma {:induction false} SetApart(p: bv32, mark: bv32, own: bv32, mask: bv32)
    requires Fits(mark, own) && Apart(mask, own)
    ensures And(Or(p, mark), mask) == And(p, mask)
  {
  }

  lemma {:induction false} DropApart(p: bv32, own: bv32, mask: bv32)
    requires Apart(mask, own)
    ensures And(Drop(p, own), mask) == And(p, mask)
  {
  }

  lemma {:induction false} FitsItself(mask: bv32)
    ensures Fits(mask, mask)
  {
  }

  lemma {:induction false} Distribute(p: bv32, q: bv32, mask: bv32)
    ensures And(Or(p, q), mask) == Or(And(p, mask), And(q, mask))
  {
  }

  lemma {:induction false} DropInside(p: bv32, own: bv32, mask: bv32)
    ensures And(Drop(p, own), mask) == Drop(And(p, mask), own)
  {
  }

  lemma {:induction false} FitsWhenKept(mark: bv32, mask: bv32)
    ensures Fits(mark, mask) <==> And(mark, mask) == mark
  {
  }

  lemma {:induction false} DropAll(p: bv32, mask: bv32)
    ensures And(Drop(p, mask), mask) == 0
  {
  }

  lemma {:induction false} OrUnits(p: bv32)
    ensures Or(p, 0) == p && Or(0, p) == p && Or(p, p) == p
  {
  }

  lemma {:induction false} OrAbsorbs(p: bv32, mask: bv32)
    ensures And(Or(p, mask), mask) == mask
  {
  }

  lemma {:induction false} NothingMasked(mask: bv32)
    ensures And(0, mask) == 0
  {
  }

  /** What is inside one mask is apart from what is apart from the mask. */
  lemma {:induction false} InsideApart(mark: bv32, own: bv32, mask: bv32)
    requires Fits(mark, own) && Apart(own, mask)
    ensures Apart(mark, mask)
  {
  }

  lemma {:induction false} KeptFits(mark: bv32, mask: bv32)
    ensures Fits(And(mark, mask), mark) && Fits(And(mark, mask), mask)
  {
  }

  lemma {:induction false} OrZero(a: bv32, b: bv32)
    ensures Or(a, b) == 0 <==> a == 0 && b == 0
  {
  }

  lemma {:induction false} OrFits(a: bv32, b: bv32, mask: bv32)
    ensures Fits(Or(a, b), mask) <==> Fits(a, mask) && Fits(b, mask)
  {
    assert Drop(Or(a, b), mask) == And(Or(a, b), !mask);
    assert Drop(a, mask) == And(a, !mask) && Drop(b, mask) == And(b, !mask);
    hide And, Or, Drop;
    Distribute(a, b, !mask);
    OrZero(Drop(a, mask), Drop(b, mask));
  }

  lemma {:induction false} OrKept(a: bv32, mark: bv32)
    ensures Or(And(a, mark), mark) == mark
  {
  }

  lemma {:induction false} FitsWhenAbsorbed(a: bv32, mark: bv32)
    ensures Or(a, mark) == mark <==> Fits(a, mark)
  {
    hide And, Or, Fits;
    FitsItself(mark);
    OrFits(a, mark, mark);
    FitsWhenKept(a, mark);
    OrKept(a, mark);
  }

  /** Or-ing a mark in leaves just the mark in the mask exactly when it fits and nothing else was there. */
  lemma {:induction false} SetReads(p: bv32, mark: bv32, mask: bv32)
    ensures And(Or(p, mark), mask) == mark <==> Fits(mark, mask) && Fits(And(p, mask), mark)
  {
    hide And, Or, Fits;
    Distribute(p, mark, mask);
    FitsWhenKept(mark, mask);
    KeptFits(Or(p, mark), mask);
    FitsWhenAbsorbed(And(p, mask), mark);
  }

  lemma {:induction false} SetFits(p: bv32, mark: bv32, mask: bv32)
    ensures Fits(And(Or(p, mark), mask), mark) <==> Fits(And(p, mask), mark)
  {
    hide And, Or, Fits;
    Distribute(p, mark, mask);
    KeptFits(mark, mask);
    OrFits(And(p, mask), And(mark, mask), mark);
  }

  /** The literal mask of the generated rules. */
  lemma {:induction false} KeepMask(p: bv32)
    ensures And(p, 0xff00_ffff) == Drop(p, 0x00ff_0000)
  {
  }
}
