/**
  Destination-port sets: parsing, in-place merging, printing and intersecting
  the comma-separated ranges of a section.
*/
module Ports {
  import opened Text

  datatype PortRange = PortRange(first: int, last: int) {
    predicate Has(p: int) { first <= p <= last }

    predicate Valid() { 1 <= first <= last <= 65535 }
  }

  datatype PortError = BadPort(token: string) | BadRange(token: string)

  datatype Result<+T> = Ok(value: T) | Err(error: PortError)

  // ----- what the text means -----

  /** One comma-separated token: a port, or two joined by a dash. */
  function ParseToken(token: string): (r: Result<PortRange>)
    ensures r.Ok? ==> r.value.Valid()
  {
    var parts := Split(TrimSpace(token), '-');
    if |parts| > 2 then Err(BadRange(token))
    else
      var a := Atoi(TrimSpace(parts[0]));
      if a.None? || a.value < 1 || a.value > 65535 then Err(BadPort(token))
      else
        var b := if |parts| == 2 then Atoi(TrimSpace(parts[1])) else a;
        if b.None? || b.value < a.value || b.value > 65535 then Err(BadRange(token))
        else Ok(PortRange(a.value, b.value))
  }

  function Prepend(rs: seq<PortRange>, rest: Result<seq<PortRange>>): Result<seq<PortRange>> {
    match rest
    case Ok(more) => Ok(rs + more)
    case Err(e) => Err(e)
  }

  /** What each token reads as. */
  function ReadAll(tokens: seq<string>): (rs: seq<Result<PortRange>>)
    ensures |rs| == |tokens|
    ensures forall i :: 0 <= i < |rs| && rs[i].Ok? ==> rs[i].value.Valid()
  {
    if tokens == [] then [] else [ParseToken(tokens[0])] + ReadAll(tokens[1..])
  }

  /** All values, or the first error. */
  function Collect(rs: seq<Result<PortRange>>): (r: Result<seq<PortRange>>)
    ensures r.Ok? ==> |r.value| == |rs| && forall i :: 0 <= i < |rs| ==> rs[i] == Ok(r.value[i])
  {
    if rs == [] then Ok([])
    else match rs[0]
      case Err(e) => Err(e)
      case Ok(x) => Prepend([x], Collect(rs[1..]))
  }

  /** Token by token; the first bad token is the error. */
  function ParseTokens(tokens: seq<string>): (r: Result<seq<PortRange>>)
    ensures r.Ok? ==> |r.value| == |tokens| && forall i :: 0 <= i < |r.value| ==> r.value[i].Valid()
  {
    var rs := ReadAll(tokens);
    var r := Collect(rs);
    assert r.Ok? ==> forall i :: 0 <= i < |rs| ==> rs[i].Ok? && rs[i].value.Valid();
    r
  }

  /** The ranges as written, before sorting and merging; a blank list has none. */
  function Written(value: string): (r: Result<seq<PortRange>>)
    ensures r.Ok? ==> forall i :: 0 <= i < |r.value| ==> r.value[i].Valid()
    ensures r.Ok? ==> (r.value == [] <==> Blank(value))
  {
    if Blank(value) then Ok([]) else ParseTokens(Split(value, ','))
  }

  predicate Valid(value: string) { Written(value).Ok? }

  predicate Has(rs: seq<PortRange>, p: int) {
    exists i :: 0 <= i < |rs| && rs[i].Has(p)
  }

  /** The text names port p. */
  predicate Names(value: string, p: int) {
    Valid(value) && Has(Written(value).value, p)
  }

  /** The text as a restriction: blank means unrestricted. */
  predicate Admits(value: string, p: int) {
    Blank(value) || Names(value, p)
  }

  // ----- merging -----

  /** Ascending with a gap of at least one port between neighbours. */
  ghost predicate NormalForm(rs: seq<PortRange>) {
    && (forall i :: 0 <= i < |rs| ==> rs[i].first <= rs[i].last)
    && (forall i, j :: 0 <= i < j < |rs| ==> rs[i].last + 1 < rs[j].first)
  }

  ghost predicate SortedByFirst(rs: seq<PortRange>) {
    forall i, j :: 0 <= i < j < |rs| ==> rs[i].first <= rs[j].first
  }

  /** One turn of the merge loop. */
  function Absorb(m: seq<PortRange>, r: PortRange): seq<PortRange> {
    if m != [] && r.first <= m[|m| - 1].last + 1 then
      if r.last > m[|m| - 1].last then m[|m| - 1 := m[|m| - 1].(last := r.last)] else m
    else m + [r]
  }

  function Merge(rs: seq<PortRange>): (m: seq<PortRange>)
    ensures |m| <= |rs|
    ensures rs != [] ==> m != []
  {
    if rs == [] then [] else Absorb(Merge(rs[..|rs| - 1]), rs[|rs| - 1])
  }

  lemma {:induction false} AbsorbNormal(m: seq<PortRange>, r: PortRange)
    requires NormalForm(m) && r.first <= r.last
    requires m != [] ==> m[|m| - 1].first <= r.first
    ensures NormalForm(Absorb(m, r))
    ensures Absorb(m, r)[|Absorb(m, r)| - 1].first <= r.first
  {
  }

  lemma {:induction false} AbsorbPorts(m: seq<PortRange>, r: PortRange, p: int)
    requires r.first <= r.last
    requires m != [] ==> m[|m| - 1].first <= r.first && m[|m| - 1].first <= m[|m| - 1].last
    ensures Has(Absorb(m, r), p) <==> Has(m, p) || r.Has(p)
  {
    if m == [] {
      HasSnoc(m, r, p);
    } else {
      var front, last := m[..|m| - 1], m[|m| - 1];
      assert m == front + [last];
      HasSnoc(front, last, p);
      HasSnoc(m, r, p);
      var wide := last.(last := r.last);
      HasSnoc(front, wide, p);
      assert m[|m| - 1 := wide] == front + [wide];
    }
  }

  predicate NonEmpty(rs: seq<PortRange>) { forall i :: 0 <= i < |rs| ==> rs[i].first <= rs[i].last }

  ghost predicate SamePorts(a: seq<PortRange>, b: seq<PortRange>) {
    forall p :: Has(a, p) <==> Has(b, p)
  }

  lemma {:induction false} MergeNormal(rs: seq<PortRange>)
    requires SortedByFirst(rs) && NonEmpty(rs)
    ensures NormalForm(Merge(rs))
    ensures rs != [] ==> Merge(rs)[|Merge(rs)| - 1].first <= rs[|rs| - 1].first
  {
    if rs != [] {
      MergeNormal(rs[..|rs| - 1]);
      AbsorbNormal(Merge(rs[..|rs| - 1]), rs[|rs| - 1]);
    }
  }

  /** What absorbing the last range asks of the earlier ones. */
  lemma {:induction false} LastAbsorbs(rs: seq<PortRange>)
    requires SortedByFirst(rs) && NonEmpty(rs) && rs != []
    ensures var front, r := rs[..|rs| - 1], rs[|rs| - 1];
            var m := Merge(front);
            && SortedByFirst(front) && NonEmpty(front) && r.first <= r.last
            && (m != [] ==> m[|m| - 1].first <= r.first && m[|m| - 1].first <= m[|m| - 1].last)
  {
    hide Merge;
    MergeNormal(rs[..|rs| - 1]);
  }

  lemma {:induction false} MergePorts(rs: seq<PortRange>, p: int)
    requires SortedByFirst(rs) && NonEmpty(rs)
    ensures Has(Merge(rs), p) <==> Has(rs, p)
  {
    if rs != [] {
      hide Has, Absorb, SortedByFirst, NonEmpty;
      var front, r := rs[..|rs| - 1], rs[|rs| - 1];
      LastAbsorbs(rs);
      MergePorts(front, p);
      AbsorbPorts(Merge(front), r, p);
      HasSnoc(front, r, p);
      assert rs == front + [r];
    }
  }

  /** Merging a sorted list keeps its ports and leaves it in normal form. */
  lemma {:induction false} MergeKeeps(rs: seq<PortRange>)
    requires SortedByFirst(rs) && NonEmpty(rs)
    ensures NormalForm(Merge(rs)) && SamePorts(Merge(rs), rs)
  {
    MergeNormal(rs);
    forall p ensures Has(Merge(rs), p) <==> Has(rs, p) { MergePorts(rs, p); }
  }

  lemma {:induction false} HasSnoc(rs: seq<PortRange>, r: PortRange, p: int)
    ensures Has(rs + [r], p) <==> Has(rs, p) || r.Has(p)
  {
    if Has(rs, p) {
      var i :| 0 <= i < |rs| && rs[i].Has(p);
      assert (rs + [r])[i].Has(p);
    }
    if r.Has(p) {
      assert (rs + [r])[|rs|].Has(p);
    }
  }

  lemma {:induction false} HasCons(rs: seq<PortRange>, p: int)
    requires rs != []
    ensures Has(rs, p) <==> rs[0].Has(p) || Has(rs[1..], p)
  {
    if Has(rs, p) {
      var i :| 0 <= i < |rs| && rs[i].Has(p);
      if i > 0 { assert rs[1..][i - 1].Has(p); }
    }
    if Has(rs[1..], p) {
      var i :| 0 <= i < |rs[1..]| && rs[1..][i].Has(p);
      assert rs[i + 1].Has(p);
    }
  }

  /** In normal form a port set has one spelling. */
  lemma {:induction false} NormalFormUnique(a: seq<PortRange>, b: seq<PortRange>)
    requires NormalForm(a) && NormalForm(b) && SamePorts(a, b)
    ensures a == b
  {
    if a == [] {
      if b != [] { LeastPort(b, a); }
    } else {
      LeastPort(a, b);
      LeastPort(b, a);
      FirstRangeReaches(a, b);
      FirstRangeReaches(b, a);
      forall p ensures Has(a[1..], p) <==> Has(b[1..], p) {
        HasCons(a, p);
        HasCons(b, p);
        assert Has(a, p) <==> Has(b, p);
        if Has(a[1..], p) { BeyondFirst(a, p); }
        if Has(b[1..], p) { BeyondFirst(b, p); }
      }
      NormalFormUnique(a[1..], b[1..]);
    }
  }

  lemma {:induction false} BeyondFirst(a: seq<PortRange>, p: int)
    requires NormalForm(a) && a != [] && Has(a[1..], p)
    ensures !a[0].Has(p)
  {
    var i :| 0 <= i < |a[1..]| && a[1..][i].Has(p);
    assert a[0].last + 1 < a[i + 1].first;
  }

  /** The first port of a is no less than the first port of an equal set. */
  lemma {:induction false} LeastPort(a: seq<PortRange>, b: seq<PortRange>)
    requires NormalForm(a) && NormalForm(b) && SamePorts(a, b) && a != []
    ensures b != [] && b[0].first <= a[0].first
  {
    assert a[0].Has(a[0].first);
    assert Has(a, a[0].first);
    var i :| 0 <= i < |b| && b[i].Has(a[0].first);
  }

  /** Ranges that start together end together: the next port after b's first gap is in neither. */
  lemma {:induction false} FirstRangeReaches(a: seq<PortRange>, b: seq<PortRange>)
    requires NormalForm(a) && NormalForm(b) && SamePorts(a, b) && a != [] && b != []
    requires a[0].first == b[0].first
    ensures a[0].last <= b[0].last
  {
    var p := b[0].last + 1;
    assert !Has(b, p);
    assert !Has(a, p);
    assert !a[0].Has(p);
  }

  // ----- the sort leaves ties open -----

  /** Whatever order ties end up in, a sorted rearrangement merges to the same list. */
  lemma {:induction false} MergeIgnoresTies(rs: seq<PortRange>, a: seq<PortRange>, b: seq<PortRange>)
    requires NonEmpty(rs) && multiset(a) == multiset(rs) == multiset(b)
    requires SortedByFirst(a) && SortedByFirst(b)
    ensures Merge(a) == Merge(b) && SamePorts(Merge(a), rs)
  {
    RearrangedPorts(rs, a);
    RearrangedPorts(rs, b);
    MergeKeeps(a);
    MergeKeeps(b);
    NormalFormUnique(Merge(a), Merge(b));
  }

  lemma {:induction false} RearrangedPorts(rs: seq<PortRange>, a: seq<PortRange>)
    requires multiset(a) == multiset(rs)
    ensures SamePorts(a, rs) && (NonEmpty(rs) ==> NonEmpty(a))
  {
    assert forall r :: r in a <==> r in multiset(a);
    assert forall r :: r in rs <==> r in multiset(rs);
    forall p ensures Has(a, p) <==> Has(rs, p) {
      HasMember(a, p);
      HasMember(rs, p);
    }
    if NonEmpty(rs) {
      forall i | 0 <= i < |a| ensures a[i].first <= a[i].last { assert a[i] in rs; }
    }
  }

  lemma {:induction false} HasMember(rs: seq<PortRange>, p: int)
    ensures Has(rs, p) <==> exists r :: r in rs && r.Has(p)
  {
    if r :| r in rs && r.Has(p) {
      var i :| 0 <= i < |rs| && rs[i] == r;
      assert rs[i].Has(p);
    }
  }

  /** A sorted rearrangement, as a value: insertion from the right. */
  function Insert(rs: seq<PortRange>, r: PortRange): seq<PortRange> {
    if rs == [] || rs[|rs| - 1].first <= r.first then rs + [r]
    else Insert(rs[..|rs| - 1], r) + [rs[|rs| - 1]]
  }

  lemma {:induction false} InsertRearranges(rs: seq<PortRange>, r: PortRange)
    ensures multiset(Insert(rs, r)) == multiset(rs) + multiset{r}
    ensures forall i :: 0 <= i < |Insert(rs, r)| ==> Insert(rs, r)[i] == r || Insert(rs, r)[i] in rs
  {
    if rs != [] && rs[|rs| - 1].first > r.first {
      InsertRearranges(rs[..|rs| - 1], r);
      assert rs == rs[..|rs| - 1] + [rs[|rs| - 1]];
    }
  }

  lemma {:induction false} InsertSorted(rs: seq<PortRange>, r: PortRange)
    requires SortedByFirst(rs)
    ensures SortedByFirst(Insert(rs, r))
  {
    if rs != [] && rs[|rs| - 1].first > r.first {
      InsertSorted(rs[..|rs| - 1], r);
      InsertRearranges(rs[..|rs| - 1], r);
    }
  }

  function Sort(rs: seq<PortRange>): (out: seq<PortRange>)
    ensures SortedByFirst(out) && multiset(out) == multiset(rs)
  {
    if rs == [] then []
    else
      var front := Sort(rs[..|rs| - 1]);
      assert rs == rs[..|rs| - 1] + [rs[|rs| - 1]];
      InsertRearranges(front, rs[|rs| - 1]);
      InsertSorted(front, rs[|rs| - 1]);
      Insert(front, rs[|rs| - 1])
  }

  /** sort.Slice by first port: not stable, so only a sorted rearrangement is promised. */
  method SortSlice(a: array<PortRange>)
    modifies a
    ensures SortedByFirst(a[..]) && multiset(a[..]) == multiset(old(a[..]))
  {
    var sorted := Sort(a[..]);
    assert |sorted| == |multiset(sorted)| == |multiset(a[..])| == a.Length;
    forall i | 0 <= i < a.Length {
      a[i] := sorted[i];
    }
    assert a[..] == sorted;
  }

  lemma {:induction false} NothingMerged(rs: seq<PortRange>)
    ensures Merge(rs[..0]) == []
  {
  }

  lemma {:induction false} MergeNext(rs: seq<PortRange>, i: nat)
    requires i < |rs|
    ensures Merge(rs[..i + 1]) == Absorb(Merge(rs[..i]), rs[i])
  {
    assert rs[..i + 1][..i] == rs[..i];
  }

  /** merged := out[:0], filled through the same backing array the loop reads from. */
  method MergeInPlace(a: array<PortRange>) returns (m: nat)
    modifies a
    ensures m <= a.Length && a[..m] == Merge(old(a[..]))
  {
    hide Merge;
    m := 0;
    NothingMerged(old(a[..]));
    for i := 0 to a.Length
      invariant m <= i
      invariant a[..m] == Merge(old(a[..])[..i])
      invariant forall k :: i <= k < a.Length ==> a[k] == old(a[..])[k]
    {
      var r := a[i];
      ghost var before := a[..m];
      MergeNext(old(a[..]), i);
      if m > 0 && r.first <= a[m - 1].last + 1 {
        if r.last > a[m - 1].last {
          a[m - 1] := a[m - 1].(last := r.last);
        }
      } else {
        a[m] := r;
        m := m + 1;
      }
      assert a[..m] == Absorb(before, r);
    }
    assert old(a[..])[..a.Length] == old(a[..]);
  }

  /** What a list of ports parses to. */
  function Parsed(value: string): (r: Result<seq<PortRange>>)
    ensures r.Ok? <==> Valid(value)
    ensures r.Ok? ==> (r.value == [] <==> Blank(value))
  {
    match Written(value)
    case Err(e) => Err(e)
    case Ok(rs) => Ok(Merge(Sort(rs)))
  }

  /** Reads one token into a range. */
  method ReadToken(token: string) returns (r: Result<PortRange>)
    ensures r == ParseToken(token)
  {
    var parts := Split(TrimSpace(token), '-');
    if |parts| > 2 {
      return Err(BadRange(token));
    }
    var a := Atoi(TrimSpace(parts[0]));
    if a.None? || a.value < 1 || a.value > 65535 {
      return Err(BadPort(token));
    }
    var b := a;
    if |parts| == 2 {
      b := Atoi(TrimSpace(parts[1]));
    }
    if b.None? || b.value < a.value || b.value > 65535 {
      return Err(BadRange(token));
    }
    return Ok(PortRange(a.value, b.value));
  }

  lemma {:induction false} ReadAllAt(tokens: seq<string>, i: nat)
    requires i < |tokens|
    ensures ReadAll(tokens)[i] == ParseToken(tokens[i])
  {
    if i > 0 {
      ReadAllAt(tokens[1..], i - 1);
    }
  }

  lemma {:induction false} CollectOn(rs: seq<Result<PortRange>>, out: seq<PortRange>, i: nat)
    requires i < |rs|
    ensures rs[i].Err? ==> Prepend(out, Collect(rs[i..])) == Err(rs[i].error)
    ensures rs[i].Ok? ==> Prepend(out, Collect(rs[i..])) == Prepend(out + [rs[i].value], Collect(rs[i + 1..]))
  {
    assert rs[i..][1..] == rs[i + 1..];
    if rs[i].Ok? && Collect(rs[i + 1..]).Ok? {
      var more := Collect(rs[i + 1..]).value;
      assert out + ([rs[i].value] + more) == (out + [rs[i].value]) + more;
    }
  }

  method ReadTokens(tokens: seq<string>) returns (r: Result<seq<PortRange>>)
    ensures r == ParseTokens(tokens)
  {
    var out: seq<PortRange> := [];
    ghost var rs := ReadAll(tokens);
    assert rs[0..] == rs && (Collect(rs).Ok? ==> [] + Collect(rs).value == Collect(rs).value);
    for i := 0 to |tokens|
      invariant Collect(rs) == Prepend(out, Collect(rs[i..]))
    {
      var one := ReadToken(tokens[i]);
      ReadAllAt(tokens, i);
      CollectOn(rs, out, i);
      if one.Err? {
        return Err(one.error);
      }
      out := out + [one.value];
    }
    assert rs[|tokens|..] == [] && out + [] == out;
    return Ok(out);
  }

  /** parsePortRanges: read, sort, and merge over the slice's own backing array. */
  method ParsePortRanges(value: string) returns (r: Result<seq<PortRange>>)
    ensures r == Parsed(value)
  {
    if TrimSpace(value) == "" {
      return Ok([]);
    }
    var read := ReadTokens(Split(value, ','));
    if read.Err? {
      return Err(read.error);
    }
    var out := read.value;
    var backing := new PortRange[|out|](i requires 0 <= i < |out| => out[i]);
    assert backing[..] == out;
    SortSlice(backing);
    MergeIgnoresTies(out, backing[..], Sort(out));
    var m := MergeInPlace(backing);
    return Ok(backing[..m]);
  }

  // ----- printing -----

  function FormatRange(r: PortRange): string
    requires r.Valid()
  {
    if r.last != r.first then Itoa(r.first) + "-" + Itoa(r.last) else Itoa(r.first)
  }

  ghost predicate Proper(rs: seq<PortRange>) {
    NormalForm(rs) && forall i :: 0 <= i < |rs| ==> rs[i].Valid()
  }

  function Parts(rs: seq<PortRange>): (parts: seq<string>)
    requires forall i :: 0 <= i < |rs| ==> rs[i].Valid()
    ensures |parts| == |rs|
  {
    if rs == [] then [] else [FormatRange(rs[0])] + Parts(rs[1..])
  }

  /** formatPortRanges. */
  function Format(rs: seq<PortRange>): string
    requires forall i :: 0 <= i < |rs| ==> rs[i].Valid()
  {
    Join(Parts(rs), ", ")
  }

  lemma {:induction false} SinglePortText(n: int)
    requires 1 <= n <= 65535
    ensures Tight(Itoa(n)) && ',' !in Itoa(n)
    ensures forall token :: TrimSpace(token) == Itoa(n) ==> ParseToken(token) == Ok(PortRange(n, n))
  {
    hide IsSpace, TrimSpace, Split, Itoa, Atoi;
    ItoaTight(n);
    AtoiItoa(n);
    TrimTight(Itoa(n));
    SplitOne(Itoa(n), '-');
  }

  lemma {:induction false} RangeText(a: int, b: int)
    requires 1 <= a < b <= 65535
    ensures Tight(Itoa(a) + "-" + Itoa(b)) && ',' !in Itoa(a) + "-" + Itoa(b)
    ensures forall token :: TrimSpace(token) == Itoa(a) + "-" + Itoa(b) ==> ParseToken(token) == Ok(PortRange(a, b))
  {
    hide IsSpace, TrimSpace, Split, Itoa, Atoi, Tight;
    ItoaTight(a);
    ItoaTight(b);
    AtoiItoa(a);
    AtoiItoa(b);
    TwoPartText(Itoa(a), Itoa(b));
  }

  lemma {:induction false} TwoPartText(s: string, t: string)
    requires Tight(s) && Tight(t) && '-' !in s && '-' !in t
    ensures Split(s + "-" + t, '-') == [s, t] && Tight(s + "-" + t)
    ensures TrimSpace(s) == s && TrimSpace(t) == t
  {
    hide IsSpace, TrimSpace, Split;
    TrimTight(s);
    TrimTight(t);
    SplitOne(t, '-');
    SplitCons(s, '-', t);
    var all := s + "-" + t;
    assert all == s + ['-'] + t && all[0] == s[0] && all[|all| - 1] == t[|t| - 1];
  }

  lemma {:induction false} FormatRangeText(r: PortRange)
    requires r.Valid()
    ensures Tight(FormatRange(r)) && ',' !in FormatRange(r)
    ensures ParseToken(FormatRange(r)) == Ok(r) && ParseToken(" " + FormatRange(r)) == Ok(r)
  {
    hide ParseToken, IsSpace, TrimSpace, Itoa, Tight;
    if r.first == r.last { SinglePortText(r.first); } else { RangeText(r.first, r.last); }
    TrimTight(FormatRange(r));
  }

  lemma {:induction false} CollectOks(rs: seq<PortRange>, read: seq<Result<PortRange>>)
    requires |read| == |rs| && forall i :: 0 <= i < |rs| ==> read[i] == Ok(rs[i])
    ensures Collect(read) == Ok(rs)
  {
    if rs != [] {
      CollectOks(rs[1..], read[1..]);
      assert [rs[0]] + rs[1..] == rs;
    }
  }

  lemma {:induction false} PartsText(rs: seq<PortRange>)
    requires forall i :: 0 <= i < |rs| ==> rs[i].Valid()
    ensures forall i :: 0 <= i < |rs| ==> Tight(Parts(rs)[i]) && ',' !in Parts(rs)[i]
  {
    if rs != [] {
      FormatRangeText(rs[0]);
      PartsText(rs[1..]);
    }
  }

  /** The printed parts read back with a space in front. */
  lemma {:induction false} PartsReadBack(rs: seq<PortRange>, parts: seq<string>)
    requires forall i :: 0 <= i < |rs| ==> rs[i].Valid()
    requires parts == Parts(rs)
    ensures forall i :: 0 <= i < |rs| ==> ReadAll(Spaced(parts))[i] == Ok(rs[i])
  {
    if rs != [] {
      PartsReadBack(rs[1..], parts[1..]);
      SpacedReadsBack(rs[0], parts[0]);
    }
  }

  lemma {:induction false} SpacedReadsBack(r: PortRange, part: string)
    requires r.Valid() && part == FormatRange(r)
    ensures ParseToken(part) == Ok(r) && ParseToken(" " + part) == Ok(r)
  {
    FormatRangeText(r);
  }

  lemma {:induction false} FormatTokens(rs: seq<PortRange>)
    requires rs != [] && forall i :: 0 <= i < |rs| ==> rs[i].Valid()
    ensures ParseTokens(Split(Format(rs), ',')) == Ok(rs) && !Blank(Format(rs))
  {
    hide ParseToken, Split, Join, IsSpace, TrimSpace, FormatRange, Spaced, Collect;
    var parts := Parts(rs);
    PartsText(rs);
    SpacedReadsBack(rs[0], parts[0]);
    PartsReadBack(rs[1..], parts[1..]);
    SplitJoined(parts);
    JoinedNotBlank(parts, ", ");
    var tokens := [parts[0]] + Spaced(parts[1..]);
    assert tokens[1..] == Spaced(Parts(rs[1..]));
    CollectOks(rs, ReadAll(tokens));
  }

  lemma {:induction false} ParsedShape(value: string)
    requires Valid(value)
    ensures Proper(Parsed(value).value) && SamePorts(Parsed(value).value, Written(value).value)
  {
    var rs := Written(value).value;
    MergeIgnoresTies(rs, Sort(rs), Sort(rs));
    RearrangedPorts(rs, Sort(rs));
    MergeKeeps(Sort(rs));
    var m := Parsed(value).value;
    forall i | 0 <= i < |m| ensures m[i].Valid() {
      PortsInBounds(rs, m[i].first, m, i);
      PortsInBounds(rs, m[i].last, m, i);
    }
  }

  lemma {:induction false} PortsInBounds(rs: seq<PortRange>, p: int, m: seq<PortRange>, i: nat)
    requires forall k :: 0 <= k < |rs| ==> rs[k].Valid()
    requires SamePorts(m, rs) && i < |m| && m[i].Has(p)
    ensures 1 <= p <= 65535
  {
    assert Has(m, p);
    var k :| 0 <= k < |rs| && rs[k].Has(p);
  }

  /** Parsing undoes printing, for every list in normal form. */
  lemma {:induction false} ParseUndoesPrint(rs: seq<PortRange>)
    requires Proper(rs)
    ensures Parsed(Format(rs)) == Ok(rs)
  {
    if rs != [] {
      FormatTokens(rs);
      MergeIgnoresTies(rs, Sort(rs), rs);
      MergeKeeps(rs);
      NormalFormUnique(Merge(rs), rs);
    }
  }

  // ----- NormalizeDestinationPorts -----

  function Normalized(value: string): (r: Result<string>)
    ensures r.Ok? <==> Valid(value)
  {
    match Parsed(value)
    case Err(e) => Err(e)
    case Ok(rs) => ParsedShape(value); Ok(Format(rs))
  }

  method FormatPortRanges(ranges: seq<PortRange>) returns (s: string)
    requires forall i :: 0 <= i < |ranges| ==> ranges[i].Valid()
    ensures s == Format(ranges)
  {
    var parts: seq<string> := [];
    assert ranges[0..] == ranges;
    for i := 0 to |ranges|
      invariant parts + Parts(ranges[i..]) == Parts(ranges)
    {
      var part := Itoa(ranges[i].first);
      if ranges[i].last != ranges[i].first {
        part := part + "-" + Itoa(ranges[i].last);
      }
      assert ranges[i..][1..] == ranges[i + 1..];
      parts := parts + [part];
    }
    assert parts == Parts(ranges);
    s := Join(parts, ", ");
  }

  method NormalizeDestinationPorts(value: string) returns (r: Result<string>)
    ensures r == Normalized(value)
  {
    var ranges := ParsePortRanges(value);
    if ranges.Err? {
      return Err(ranges.error);
    }
    ParsedShape(value);
    var s := FormatPortRanges(ranges.value);
    return Ok(s);
  }

  /** Two valid lists print identically exactly when they name the same ports. */
  lemma {:induction false} NormalizationIsCanonical(x: string, y: string)
    requires Valid(x) && Valid(y)
    ensures Normalized(x) == Normalized(y) <==> forall p :: Names(x, p) <==> Names(y, p)
  {
    var a, b := Parsed(x).value, Parsed(y).value;
    ParsedShape(x);
    ParsedShape(y);
    ParseUndoesPrint(a);
    ParseUndoesPrint(b);
    assert forall p :: Has(a, p) <==> Names(x, p);
    assert forall p :: Has(b, p) <==> Names(y, p);
    if forall p :: Names(x, p) <==> Names(y, p) {
      NormalFormUnique(a, b);
    }
  }

  /** Normalising keeps the ports, the restriction, and is idempotent. */
  lemma {:induction false} NormalizationKeepsPorts(x: string)
    requires Valid(x)
    ensures Valid(Normalized(x).value) && Normalized(Normalized(x).value) == Normalized(x)
    ensures forall p :: Names(Normalized(x).value, p) <==> Names(x, p)
    ensures forall p :: Admits(Normalized(x).value, p) <==> Admits(x, p)
  {
    var a := Parsed(x).value;
    ParsedShape(x);
    ParseUndoesPrint(a);
    ParsedShape(Format(a));
  }

  // ----- IntersectDestinationPorts -----

  /** The overlap of two ranges, if any. */
  function Overlap(x: PortRange, y: PortRange): seq<PortRange> {
    var lo := if x.first > y.first then x.first else y.first;
    var hi := if x.last < y.last then x.last else y.last;
    if lo <= hi then [PortRange(lo, hi)] else []
  }

  /** The overlaps of one range with each of a list, in order. */
  function OverlapsOf(x: PortRange, br: seq<PortRange>): seq<PortRange> {
    if br == [] then [] else OverlapsOf(x, br[..|br| - 1]) + Overlap(x, br[|br| - 1])
  }

  function Overlaps(ar: seq<PortRange>, br: seq<PortRange>): seq<PortRange> {
    if ar == [] then [] else Overlaps(ar[..|ar| - 1], br) + OverlapsOf(ar[|ar| - 1], br)
  }

  ghost predicate Within(rs: seq<PortRange>, lo: int, hi: int) {
    forall i :: 0 <= i < |rs| ==> lo <= rs[i].first && rs[i].last <= hi
  }

  lemma {:induction false} HasConcat(a: seq<PortRange>, b: seq<PortRange>, p: int)
    ensures Has(a + b, p) <==> Has(a, p) || Has(b, p)
  {
    if Has(a, p) { var i :| 0 <= i < |a| && a[i].Has(p); assert (a + b)[i].Has(p); }
    if Has(b, p) { var i :| 0 <= i < |b| && b[i].Has(p); assert (a + b)[|a| + i].Has(p); }
  }

  /** Two normal forms with a gap between them make one. */
  lemma {:induction false} AppendNormal(a: seq<PortRange>, b: seq<PortRange>, lo: int, m: int, n: int, hi: int)
    requires NormalForm(a) && NormalForm(b) && Within(a, lo, m) && Within(b, n, hi)
    requires a == [] || (m + 1 < n && lo <= n && m <= hi)
    ensures NormalForm(a + b) && (a != [] ==> Within(a + b, lo, hi))
  {
  }

  lemma {:induction false} OverlapMeets(x: PortRange, y: PortRange, p: int)
    ensures Has(Overlap(x, y), p) <==> x.Has(p) && y.Has(p)
  {
    if x.Has(p) && y.Has(p) { assert Overlap(x, y)[0].Has(p); }
  }

  lemma {:induction false} OverlapsOfWithin(x: PortRange, br: seq<PortRange>)
    ensures Within(OverlapsOf(x, br), x.first, x.last)
  {
    if br != [] {
      OverlapsOfWithin(x, br[..|br| - 1]);
    }
  }

  /** Within one range: the overlaps are in normal form and stay inside the list. */
  lemma {:induction false} OverlapShape(x: PortRange, y: PortRange)
    ensures NormalForm(Overlap(x, y)) && Within(Overlap(x, y), y.first, y.last)
  {
  }

  lemma {:induction false} NormalFront(br: seq<PortRange>)
    requires NormalForm(br) && br != []
    ensures var n := |br| - 1;
            NormalForm(br[..n]) && br[0].first <= br[n].first && (n > 0 ==> br[n - 1].last + 1 < br[n].first)
    ensures br[|br| - 1].first <= br[|br| - 1].last
  {
  }

  lemma {:induction false} WithinWider(rs: seq<PortRange>, lo: int, hi: int, low: int)
    requires Within(rs, lo, hi) && low <= lo
    ensures Within(rs, low, hi)
  {
  }

  lemma {:induction false} OverlapsOfNormal(x: PortRange, br: seq<PortRange>)
    requires NormalForm(br)
    ensures NormalForm(OverlapsOf(x, br))
    ensures br != [] ==> Within(OverlapsOf(x, br), br[0].first, br[|br| - 1].last)
  {
    if br != [] {
      hide NormalForm, Within, Overlap;
      var front, y := br[..|br| - 1], br[|br| - 1];
      NormalFront(br);
      OverlapsOfNormal(x, front);
      OverlapShape(x, y);
      var done := OverlapsOf(x, front);
      if done == [] {
        assert done + Overlap(x, y) == Overlap(x, y);
        WithinWider(Overlap(x, y), y.first, y.last, br[0].first);
      } else {
        AppendNormal(done, Overlap(x, y), br[0].first, front[|front| - 1].last, y.first, y.last);
      }
    }
  }

  lemma {:induction false} OverlapsOfMeet(x: PortRange, br: seq<PortRange>, p: int)
    ensures Has(OverlapsOf(x, br), p) <==> x.Has(p) && Has(br, p)
  {
    if br != [] {
      var front, y := br[..|br| - 1], br[|br| - 1];
      OverlapsOfMeet(x, front, p);
      HasConcat(OverlapsOf(x, front), Overlap(x, y), p);
      OverlapMeets(x, y, p);
      assert br == front + [y];
      HasSnoc(front, y, p);
    }
  }

  lemma {:induction false} OverlapsNormal(ar: seq<PortRange>, br: seq<PortRange>)
    requires NormalForm(ar) && NormalForm(br)
    ensures NormalForm(Overlaps(ar, br))
    ensures ar != [] ==> Within(Overlaps(ar, br), ar[0].first, ar[|ar| - 1].last)
  {
    if ar != [] {
      var front, x := ar[..|ar| - 1], ar[|ar| - 1];
      OverlapsOfNormal(x, br);
      OverlapsOfWithin(x, br);
      if |ar| == 1 {
        assert Overlaps(front, br) == [];
      } else {
        OverlapsNormal(front, br);
        AppendNormal(Overlaps(front, br), OverlapsOf(x, br), ar[0].first, front[|front| - 1].last, x.first, x.last);
      }
    }
  }

  lemma {:induction false} OverlapsMeet(ar: seq<PortRange>, br: seq<PortRange>, p: int)
    ensures Has(Overlaps(ar, br), p) <==> Has(ar, p) && Has(br, p)
  {
    if ar != [] {
      var front, x := ar[..|ar| - 1], ar[|ar| - 1];
      OverlapsMeet(front, br, p);
      OverlapsOfMeet(x, br, p);
      HasConcat(Overlaps(front, br), OverlapsOf(x, br), p);
      assert ar == front + [x];
      HasSnoc(front, x, p);
    }
  }

  lemma {:induction false} OverlapsProper(ar: seq<PortRange>, br: seq<PortRange>)
    requires Proper(ar) && Proper(br)
    ensures Proper(Overlaps(ar, br))
  {
    OverlapsNormal(ar, br);
  }

  /** The text and the flag: a blank operand is unrestricted, a bad one or an empty overlap is refused. */
  function Intersection(a: string, b: string): (string, bool) {
    if !Valid(a) || !Valid(b) then ("", false)
    else
      var ar, br := Parsed(a).value, Parsed(b).value;
      ParsedShape(a);
      ParsedShape(b);
      if ar == [] then (Format(br), true)
      else if br == [] then (Format(ar), true)
      else
        OverlapsProper(ar, br);
        (Format(Overlaps(ar, br)), Overlaps(ar, br) != [])
  }

  method IntersectDestinationPorts(a: string, b: string) returns (ports: string, ok: bool)
    ensures (ports, ok) == Intersection(a, b)
  {
    var ar := ParsePortRanges(a);
    if ar.Err? {
      return "", false;
    }
    var br := ParsePortRanges(b);
    if br.Err? {
      return "", false;
    }
    ParsedShape(a);
    ParsedShape(b);
    if |ar.value| == 0 {
      ports := FormatPortRanges(br.value);
      return ports, true;
    }
    if |br.value| == 0 {
      ports := FormatPortRanges(ar.value);
      return ports, true;
    }
    var out := OverlapLoops(ar.value, br.value);
    OverlapsProper(ar.value, br.value);
    ports := FormatPortRanges(out);
    return ports, |out| > 0;
  }

  lemma {:induction false} NextOverlap(before: seq<PortRange>, x: PortRange, ys: seq<PortRange>, j: nat)
    requires j < |ys|
    ensures before + OverlapsOf(x, ys[..j + 1]) == before + OverlapsOf(x, ys[..j]) + Overlap(x, ys[j])
  {
    assert ys[..j + 1][..j] == ys[..j];
  }

  lemma {:induction false} NoOverlap(before: seq<PortRange>, x: PortRange, ys: seq<PortRange>)
    ensures before + OverlapsOf(x, ys[..0]) == before
  {
  }

  method OverlapLoops(xs: seq<PortRange>, ys: seq<PortRange>) returns (out: seq<PortRange>)
    ensures out == Overlaps(xs, ys)
  {
    hide OverlapsOf;
    out := [];
    for i := 0 to |xs|
      invariant out == Overlaps(xs[..i], ys)
    {
      ghost var before := out;
      NoOverlap(before, xs[i], ys);
      for j := 0 to |ys|
        invariant out == before + OverlapsOf(xs[i], ys[..j])
      {
        var lo := if xs[i].first > ys[j].first then xs[i].first else ys[j].first;
        var hi := if xs[i].last < ys[j].last then xs[i].last else ys[j].last;
        NextOverlap(before, xs[i], ys, j);
        if lo <= hi {
          out := out + [PortRange(lo, hi)];
        }
      }
      assert ys[..|ys|] == ys && xs[..i + 1][..i] == xs[..i];
    }
    assert xs[..|xs|] == xs;
  }

  /** Printing a list in normal form gives a text that names exactly its ports. */
  lemma {:induction false} FormatMeaning(rs: seq<PortRange>, text: string)
    requires Proper(rs) && text == Format(rs)
    ensures Valid(text) && Normalized(text) == Ok(text)
    ensures Blank(text) <==> rs == []
    ensures forall p :: Names(text, p) <==> Has(rs, p)
  {
    ParseUndoesPrint(rs);
    ParsedShape(text);
  }

  lemma {:induction false} OverlapWitness(ar: seq<PortRange>, br: seq<PortRange>)
    requires Proper(ar) && Proper(br)
    ensures Overlaps(ar, br) != [] <==> exists p :: Has(ar, p) && Has(br, p)
  {
    var out := Overlaps(ar, br);
    OverlapsProper(ar, br);
    if out != [] {
      var p := out[0].first;
      assert out[0].Has(p);
      OverlapsMeet(ar, br, p);
    }
    if p :| Has(ar, p) && Has(br, p) {
      OverlapsMeet(ar, br, p);
    }
  }

  /** What an intersection means as a restriction; the text is already normal, without a merge. */
  lemma {:induction false} IntersectionMeets(a: string, b: string)
    requires Valid(a) && Valid(b)
    ensures Intersection(a, b).1 <==> Blank(a) || Blank(b) || exists p :: Names(a, p) && Names(b, p)
    ensures Intersection(a, b).1 ==> Normalized(Intersection(a, b).0) == Ok(Intersection(a, b).0)
    ensures Intersection(a, b).1 ==>
              forall p :: Admits(Intersection(a, b).0, p) <==> Admits(a, p) && Admits(b, p)
  {
    var ar, br := Parsed(a).value, Parsed(b).value;
    ParsedShape(a);
    ParsedShape(b);
    assert forall p :: Has(ar, p) <==> Names(a, p);
    assert forall p :: Has(br, p) <==> Names(b, p);
    if ar == [] {
      FormatMeaning(br, Format(br));
    } else if br == [] {
      FormatMeaning(ar, Format(ar));
    } else {
      OverlapsProper(ar, br);
      OverlapWitness(ar, br);
      FormatMeaning(Overlaps(ar, br), Format(Overlaps(ar, br)));
      forall p ensures Has(Overlaps(ar, br), p) <==> Names(a, p) && Names(b, p) { OverlapsMeet(ar, br, p); }
    }
  }

  /** A single port against a list: the intersection is non-empty exactly when the list admits it. */
  lemma {:induction false} PortProbe(value: string, p: int)
    requires Valid(value) && 1 <= p <= 65535
    ensures Intersection(value, Itoa(p)).1 <==> Admits(value, p)
  {
    SinglePortNamed(p);
    IntersectionMeets(value, Itoa(p));
  }

  lemma {:induction false} SinglePortNamed(p: int)
    requires 1 <= p <= 65535
    ensures Valid(Itoa(p)) && !Blank(Itoa(p)) && forall k :: Names(Itoa(p), k) <==> k == p
  {
    var one := [PortRange(p, p)];
    SingleFormat(p);
    FormatMeaning(one, Itoa(p));
    forall k ensures Has(one, k) <==> k == p {
      if k == p { assert one[0].Has(k); }
    }
  }

  lemma {:induction false} SingleFormat(p: int)
    requires 1 <= p <= 65535
    ensures Format([PortRange(p, p)]) == Itoa(p)
  {
    assert Parts([PortRange(p, p)]) == [Itoa(p)];
  }

  // ----- what a list says -----

  predicate IsNumber(s: string, n: int) { Atoi(TrimSpace(s)) == Some(n) }

  /** The token, trimmed, is a port, or two with one dash between them. */
  ghost predicate Denotes(token: string, first: int, last: int) {
    var t := TrimSpace(token);
    && 1 <= first <= last <= 65535
    && (|| ('-' !in t && first == last && IsNumber(t, first))
        || exists x, y :: t == x + "-" + y && '-' !in x && '-' !in y && IsNumber(x, first) && IsNumber(y, last))
  }

  lemma {:induction false} DashPieces(t: string)
    ensures var parts := Split(t, '-');
            && (|parts| == 1 ==> t == parts[0] && '-' !in t)
            && (|parts| == 2 ==> t == parts[0] + "-" + parts[1] && '-' !in parts[0] && '-' !in parts[1])
  {
    var parts := Split(t, '-');
    PiecesJoin(t, '-');
    if |parts| == 2 {
      PiecesAreClean(t, '-', 0);
      PiecesAreClean(t, '-', 1);
      assert Join(parts[1..], "-") == parts[1];
    } else if |parts| == 1 {
      PiecesAreClean(t, '-', 0);
    }
  }

  lemma {:induction false} TwoPieces(x: string, y: string)
    requires '-' !in x && '-' !in y
    ensures Split(x + "-" + y, '-') == [x, y]
  {
    SplitCons(x, '-', y);
    SplitOne(y, '-');
  }

  /** A token reads as a range exactly when it denotes it. */
  lemma {:induction false} TokenMeans(token: string, first: int, last: int)
    ensures ParseToken(token) == Ok(PortRange(first, last)) <==> Denotes(token, first, last)
  {
    hide TrimSpace, Atoi, Split;
    var t := TrimSpace(token);
    DashPieces(t);
    if '-' !in t { SplitOne(t, '-'); }
    if Denotes(token, first, last) && '-' in t {
      var x, y :| t == x + "-" + y && '-' !in x && '-' !in y && IsNumber(x, first) && IsNumber(y, last);
      TwoPieces(x, y);
    }
  }

  ghost predicate DenotesSome(token: string) { exists a, b :: Denotes(token, a, b) }

  lemma {:induction false} TokenReads(token: string)
    ensures ParseToken(token).Ok? <==> DenotesSome(token)
  {
    hide Denotes;
    var r := ParseToken(token);
    if r.Ok? { TokenMeans(token, r.value.first, r.value.last); }
    if a, b :| Denotes(token, a, b) { TokenMeans(token, a, b); }
  }

  /** Some piece between the commas denotes a range that holds the port. */
  ghost predicate Says(value: string, p: int) {
    exists i, a, b :: 0 <= i < |Split(value, ',')| && Denotes(Split(value, ',')[i], a, b) && a <= p <= b
  }

  /** Every piece between the commas denotes a range. */
  ghost predicate SaysAll(value: string) {
    forall i :: 0 <= i < |Split(value, ',')| ==> DenotesSome(Split(value, ',')[i])
  }

  lemma {:induction false} CollectsAll(rs: seq<Result<PortRange>>)
    ensures Collect(rs).Ok? <==> forall i :: 0 <= i < |rs| ==> rs[i].Ok?
  {
    if rs != [] {
      CollectsAll(rs[1..]);
      assert forall i :: 0 <= i < |rs[1..]| ==> rs[1..][i] == rs[i + 1];
    }
  }

  lemma {:induction false} ReadAllEach(tokens: seq<string>, i: nat)
    requires i < |tokens|
    ensures ReadAll(tokens)[i] == ParseToken(tokens[i])
  {
    hide ParseToken;
    if i > 0 { ReadAllEach(tokens[1..], i - 1); }
  }

  /** A list is valid exactly when it is blank or all its pieces denote ranges, and names the ports of those. */
  lemma {:induction false} ListMeans(value: string)
    ensures Valid(value) <==> Blank(value) || SaysAll(value)
    ensures forall p :: Names(value, p) <==> !Blank(value) && SaysAll(value) && Says(value, p)
  {
    hide Split, ParseToken, DenotesSome, Blank;
    var tokens := Split(value, ',');
    var rs := ReadAll(tokens);
    CollectsAll(rs);
    assert !Blank(value) ==> (Valid(value) <==> Collect(rs).Ok?);
    forall i | 0 <= i < |tokens| ensures rs[i].Ok? <==> DenotesSome(tokens[i]) {
      ReadAllEach(tokens, i);
      TokenReads(tokens[i]);
    }
    if !Blank(value) && SaysAll(value) {
      forall p ensures Names(value, p) <==> Says(value, p) { NamesSays(value, p); }
    }
  }

  lemma {:induction false} NamesSays(value: string, p: int)
    requires !Blank(value) && Valid(value)
    ensures Names(value, p) <==> Says(value, p)
  {
    hide Split, ParseToken, Denotes, Blank;
    var tokens := Split(value, ',');
    var out := Written(value).value;
    assert forall i :: 0 <= i < |tokens| ==> ReadAll(tokens)[i] == Ok(out[i]);
    if Has(out, p) {
      var i :| 0 <= i < |out| && out[i].Has(p);
      ReadAllEach(tokens, i);
      TokenMeans(tokens[i], out[i].first, out[i].last);
    }
    if Says(value, p) {
      var i, a, b :| 0 <= i < |tokens| && Denotes(tokens[i], a, b) && a <= p <= b;
      ReadAllEach(tokens, i);
      TokenMeans(tokens[i], a, b);
      assert out[i].Has(p);
    }
  }

  // ----- the text of an example -----

  lemma {:induction false} ExampleRange()
    ensures FormatRange(PortRange(8, 8)) == "8" && FormatRange(PortRange(80, 90)) == "80-90"
  {
    hide Parsed, Sort, Merge, Parts, Join;
    assert Itoa(8) == "8" && Itoa(9) == "9";
    assert Itoa(80) == Itoa(8) + "0" && Itoa(90) == Itoa(9) + "0";
  }

  lemma {:induction false} TwoParts(x: PortRange, y: PortRange)
    requires x.Valid() && y.Valid()
    ensures Format([x, y]) == FormatRange(x) + ", " + FormatRange(y)
  {
    hide Parsed, Sort, Merge, Itoa, FormatRange;
    var px, py := FormatRange(x), FormatRange(y);
    assert [x, y][1..] == [y] && [y][1..] == [];
    assert Parts([y]) == [py];
    assert Parts([x, y]) == [px] + [py] == [px, py];
    assert [px, py][1..] == [py] && Join([py], ", ") == py;
    assert Join([px, py], ", ") == px + ", " + py;
  }

  /** Ports and ranges as they are written. */
  lemma {:induction false} ExampleText(text: string)
    requires text == "8, 80-90"
    ensures Format([PortRange(8, 8), PortRange(80, 90)]) == text
    ensures Parsed(text) == Ok([PortRange(8, 8), PortRange(80, 90)])
  {
    hide Parsed, Sort, Merge, Itoa, FormatRange, Format, Parts, Join, Written;
    var x, y := PortRange(8, 8), PortRange(80, 90);
    assert x.Valid() && y.Valid();
    ExampleRange();
    TwoParts(x, y);
    assert Proper([x, y]);
    ParseUndoesPrint([x, y]);
  }
}
