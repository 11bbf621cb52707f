/** sort.SliceStable by a two-level integer key, and the fact that a stable sort has one answer. */
module StableSort {

  type Key = (int, int)

  predicate Le(a: Key, b: Key) { a.0 < b.0 || (a.0 == b.0 && a.1 <= b.1) }

  function Filter<T>(xs: seq<T>, keep: T -> bool): seq<T> {
    if xs == [] then []
    else if keep(xs[|xs| - 1]) then Filter(xs[..|xs| - 1], keep) + [xs[|xs| - 1]]
    else Filter(xs[..|xs| - 1], keep)
  }

  predicate Ordered<T>(xs: seq<T>, key: T -> Key) {
    forall i, j :: 0 <= i < j < |xs| ==> Le(key(xs[i]), key(xs[j]))
  }

  /** Ordered, and the elements of each key are those of the input in input order. */
  ghost predicate IsStableSort<T(!new)>(xs: seq<T>, out: seq<T>, key: T -> Key) {
    && Ordered(out, key)
    && forall k: Key :: AtKey(out, key, k) == AtKey(xs, key, k)
  }

  function AtKey<T>(xs: seq<T>, key: T -> Key, k: Key): seq<T> {
    Filter(xs, x => key(x) == k)
  }

  /** Behind every element whose key is not greater. */
  function Insert<T>(xs: seq<T>, x: T, key: T -> Key): seq<T> {
    if xs == [] || Le(key(xs[|xs| - 1]), key(x)) then xs + [x]
    else Insert(xs[..|xs| - 1], x, key) + [xs[|xs| - 1]]
  }

  function Sort<T>(xs: seq<T>, key: T -> Key): seq<T> {
    if xs == [] then [] else Insert(Sort(xs[..|xs| - 1], key), xs[|xs| - 1], key)
  }

  lemma {:induction false} FilterSnoc<T(!new)>(xs: seq<T>, x: T, keep: T -> bool)
    ensures Filter(xs + [x], keep) == if keep(x) then Filter(xs, keep) + [x] else Filter(xs, keep)
  {
    assert (xs + [x])[..|xs|] == xs;
  }

  lemma {:induction false} FilterMembers<T(!new)>(xs: seq<T>, keep: T -> bool)
    ensures forall x :: x in Filter(xs, keep) <==> x in xs && keep(x)
  {
    if xs != [] {
      FilterMembers(xs[..|xs| - 1], keep);
      assert xs == xs[..|xs| - 1] + [xs[|xs| - 1]];
    }
  }

  lemma {:induction false} FilterOrdered<T(!new)>(xs: seq<T>, keep: T -> bool, key: T -> Key)
    requires Ordered(xs, key)
    ensures Ordered(Filter(xs, keep), key)
  {
    if xs != [] {
      var front := xs[..|xs| - 1];
      FilterOrdered(front, keep, key);
      FilterMembers(front, keep);
      var f := Filter(front, keep);
      forall i | 0 <= i < |f| ensures Le(key(f[i]), key(xs[|xs| - 1])) {
        assert f[i] in f && f[i] in front;
        var j :| 0 <= j < |front| && front[j] == f[i];
        assert Le(key(xs[j]), key(xs[|xs| - 1]));
      }
    }
  }

  lemma {:induction false} InsertMembers<T(!new)>(xs: seq<T>, x: T, key: T -> Key)
    ensures forall y :: y in Insert(xs, x, key) <==> y in xs || y == x
  {
    if xs != [] && !Le(key(xs[|xs| - 1]), key(x)) {
      InsertMembers(xs[..|xs| - 1], x, key);
      assert xs == xs[..|xs| - 1] + [xs[|xs| - 1]];
    }
  }

  lemma {:induction false} InsertOrdered<T(!new)>(xs: seq<T>, x: T, key: T -> Key)
    requires Ordered(xs, key)
    ensures Ordered(Insert(xs, x, key), key)
  {
    if xs != [] && !Le(key(xs[|xs| - 1]), key(x)) {
      var front, last := xs[..|xs| - 1], xs[|xs| - 1];
      InsertOrdered(front, x, key);
      InsertMembers(front, x, key);
      var ins := Insert(front, x, key);
      forall i | 0 <= i < |ins| ensures Le(key(ins[i]), key(last)) {
        assert ins[i] in ins;
        if ins[i] != x {
          assert ins[i] in front;
          var j :| 0 <= j < |front| && front[j] == ins[i];
          assert Le(key(xs[j]), key(last));
        }
      }
    } else if xs != [] {
      forall i | 0 <= i < |xs| ensures Le(key(xs[i]), key(x)) {
        if i < |xs| - 1 { assert Le(key(xs[i]), key(xs[|xs| - 1])); }
      }
    }
  }

  /** Inserting commutes with filtering. */
  lemma {:induction false} FilterInsert<T(!new)>(xs: seq<T>, x: T, key: T -> Key, keep: T -> bool)
    requires Ordered(xs, key)
    ensures Filter(Insert(xs, x, key), keep) ==
            if keep(x) then Insert(Filter(xs, keep), x, key) else Filter(xs, keep)
  {
    if xs == [] || Le(key(xs[|xs| - 1]), key(x)) {
      FilterSnoc(xs, x, keep);
      if keep(x) { InsertLast(Filter(xs, keep), x, key) by { FilterBelow(xs, x, key, keep); } }
    } else {
      var front, last := xs[..|xs| - 1], xs[|xs| - 1];
      FilterInsert(front, x, key, keep);
      FilterSnoc(Insert(front, x, key), last, keep);
      if keep(last) {
        assert (Filter(front, keep) + [last])[..|Filter(front, keep)|] == Filter(front, keep);
      }
    }
  }

  lemma {:induction false} FilterBelow<T(!new)>(xs: seq<T>, x: T, key: T -> Key, keep: T -> bool)
    requires Ordered(xs, key) && (xs == [] || Le(key(xs[|xs| - 1]), key(x)))
    ensures Filter(xs, keep) == [] || Le(key(Filter(xs, keep)[|Filter(xs, keep)| - 1]), key(x))
  {
    var f := Filter(xs, keep);
    FilterMembers(xs, keep);
    if f != [] {
      assert f[|f| - 1] in f && f[|f| - 1] in xs;
      var j :| 0 <= j < |xs| && xs[j] == f[|f| - 1];
      if j < |xs| - 1 { assert Le(key(xs[j]), key(xs[|xs| - 1])); }
    }
  }

  lemma {:induction false} InsertLast<T(!new)>(xs: seq<T>, x: T, key: T -> Key)
    requires xs == [] || Le(key(xs[|xs| - 1]), key(x))
    ensures Insert(xs, x, key) == xs + [x]
  {
  }

  lemma {:induction false} SortOrdered<T(!new)>(xs: seq<T>, key: T -> Key)
    ensures Ordered(Sort(xs, key), key)
  {
    if xs != [] {
      SortOrdered(xs[..|xs| - 1], key);
      InsertOrdered(Sort(xs[..|xs| - 1], key), xs[|xs| - 1], key);
    }
  }

  /** Filtering before or after a stable sort makes no difference. */
  lemma {:induction false} FilterCommutesWithSort<T(!new)>(xs: seq<T>, key: T -> Key, keep: T -> bool)
    ensures Filter(Sort(xs, key), keep) == Sort(Filter(xs, keep), key)
  {
    if xs != [] {
      var front, last := xs[..|xs| - 1], xs[|xs| - 1];
      FilterCommutesWithSort(front, key, keep);
      SortOrdered(front, key);
      FilterInsert(Sort(front, key), last, key, keep);
      if keep(last) {
        assert (Filter(front, keep) + [last])[..|Filter(front, keep)|] == Filter(front, keep);
      }
    }
  }

  lemma {:induction false} SortOneKey<T(!new)>(xs: seq<T>, key: T -> Key, k: Key)
    requires forall i :: 0 <= i < |xs| ==> key(xs[i]) == k
    ensures Sort(xs, key) == xs
  {
    if xs != [] {
      SortOneKey(xs[..|xs| - 1], key, k);
      InsertLast(xs[..|xs| - 1], xs[|xs| - 1], key);
    }
  }

  lemma {:induction false} SortIsStable<T(!new)>(xs: seq<T>, key: T -> Key)
    ensures IsStableSort(xs, Sort(xs, key), key)
  {
    SortOrdered(xs, key);
    forall k: Key ensures AtKey(Sort(xs, key), key, k) == AtKey(xs, key, k) {
      var keep := x => key(x) == k;
      FilterCommutesWithSort(xs, key, keep);
      FilterMembers(xs, keep);
      var f := Filter(xs, keep);
      forall i | 0 <= i < |f| ensures key(f[i]) == k { assert f[i] in f; }
      SortOneKey(f, key, k);
    }
  }

  /** A stable sort has one answer, whoever computes it. */
  lemma {:induction false} StableSortUnique<T(!new)>(a: seq<T>, b: seq<T>, key: T -> Key)
    requires Ordered(a, key) && Ordered(b, key)
    requires forall k: Key :: AtKey(a, key, k) == AtKey(b, key, k)
    ensures a == b
    decreases |a|
  {
    if a == [] || b == [] {
      if a != [] { LastAtKey(a, key); } else if b != [] { LastAtKey(b, key); }
    } else {
      SameTop(a, b, key);
      SameTop(b, a, key);
      var k := key(a[|a| - 1]);
      LastAtKey(a, key);
      LastAtKey(b, key);
      assert AtKey(a, key, k) == AtKey(b, key, k);
      var fa, fb := a[..|a| - 1], b[..|b| - 1];
      forall m: Key ensures AtKey(fa, key, m) == AtKey(fb, key, m) {
        SameFront(a, b, key, m);
      }
      StableSortUnique(fa, fb, key);
      assert a == fa + [a[|a| - 1]] && b == fb + [b[|b| - 1]];
    }
  }

  lemma {:induction false} SameFront<T(!new)>(a: seq<T>, b: seq<T>, key: T -> Key, m: Key)
    requires a != [] && b != [] && key(a[|a| - 1]) == key(b[|b| - 1])
    requires AtKey(a, key, m) == AtKey(b, key, m)
    ensures AtKey(a[..|a| - 1], key, m) == AtKey(b[..|b| - 1], key, m)
  {
    var fa, fb := AtKey(a[..|a| - 1], key, m), AtKey(b[..|b| - 1], key, m);
    AtKeyFront(a, key, m);
    AtKeyFront(b, key, m);
    if key(a[|a| - 1]) == m {
      assert fa == (fa + [a[|a| - 1]])[..|fa|] && fb == (fb + [b[|b| - 1]])[..|fb|];
    }
  }

  lemma {:induction false} LastAtKey<T(!new)>(a: seq<T>, key: T -> Key)
    requires a != []
    ensures var f := AtKey(a, key, key(a[|a| - 1])); f != [] && f[|f| - 1] == a[|a| - 1]
  {
  }

  lemma {:induction false} AtKeyFront<T(!new)>(a: seq<T>, key: T -> Key, m: Key)
    requires a != []
    ensures AtKey(a, key, m) ==
            if key(a[|a| - 1]) == m then AtKey(a[..|a| - 1], key, m) + [a[|a| - 1]] else AtKey(a[..|a| - 1], key, m)
  {
  }

  /** The last key of a is no greater than the last key of b. */
  lemma {:induction false} SameTop<T(!new)>(a: seq<T>, b: seq<T>, key: T -> Key)
    requires a != [] && b != [] && Ordered(b, key)
    requires forall k: Key :: AtKey(a, key, k) == AtKey(b, key, k)
    ensures Le(key(a[|a| - 1]), key(b[|b| - 1]))
  {
    var k := key(a[|a| - 1]);
    LastAtKey(a, key);
    FilterMembers(b, x => key(x) == k);
    var f := AtKey(b, key, k);
    assert AtKey(a, key, k) == f;
    assert f[|f| - 1] in f && f[|f| - 1] in b;
    var j :| 0 <= j < |b| && b[j] == f[|f| - 1];
    if j < |b| - 1 { assert Le(key(b[j]), key(b[|b| - 1])); }
  }

  /** sort.SliceStable: any stable sort will do. */
  method SliceStable<T(!new)>(xs: seq<T>, key: T -> Key) returns (out: seq<T>)
    ensures IsStableSort(xs, out, key) && out == Sort(xs, key)
  {
    out := [];
    for i := 0 to |xs|
      invariant out == Sort(xs[..i], key)
    {
      assert xs[..i + 1][..i] == xs[..i];
      out := Insert(out, xs[i], key);
    }
    assert xs[..|xs|] == xs;
    SortIsStable(xs, key);
  }
}
