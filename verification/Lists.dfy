/** Existential scans over a list, as a loop grows them. */
module Lists {

  predicate Any<T>(xs: seq<T>, f: T -> bool) {
    exists i :: 0 <= i < |xs| && f(xs[i])
  }

  lemma {:induction false} AnySnoc<T>(xs: seq<T>, i: nat, f: T -> bool)
    requires i < |xs|
    ensures Any(xs[..i + 1], f) <==> Any(xs[..i], f) || f(xs[i])
  {
    var all := xs[..i + 1];
    if Any(xs[..i], f) {
      var k :| 0 <= k < i && f(xs[..i][k]);
      assert all[k] == xs[..i][k];
    }
    if f(xs[i]) { assert all[i] == xs[i]; }
    if Any(all, f) {
      var k :| 0 <= k < |all| && f(all[k]);
      if k < i { assert xs[..i][k] == all[k]; }
    }
  }

  lemma {:induction false} AnyConcat<T>(a: seq<T>, b: seq<T>, f: T -> bool)
    ensures Any(a + b, f) <==> Any(a, f) || Any(b, f)
  {
    if Any(a, f) {
      var i :| 0 <= i < |a| && f(a[i]);
      assert (a + b)[i] == a[i];
    }
    if Any(b, f) {
      var i :| 0 <= i < |b| && f(b[i]);
      assert (a + b)[|a| + i] == b[i];
    }
  }
}
