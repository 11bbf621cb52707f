/** The string functions of the Go standard library that the configuration code leans on. */
module Text {

  datatype Option<+T> = None | Some(value: T)

  // ----- trimming -----

  /** unicode.IsSpace. */
  predicate IsSpace(c: char) {
    c in {'\t', '\n', '\U{000B}', '\U{000C}', '\r', ' ', '\U{0085}', '\U{00A0}', '\U{1680}',
          '\U{2028}', '\U{2029}', '\U{202F}', '\U{205F}', '\U{3000}'}
    || '\U{2000}' <= c <= '\U{200A}'
  }

  function TrimLeft(s: string): (r: string)
    ensures |r| <= |s|
    ensures r != [] ==> !IsSpace(r[0])
  {
    if s != [] && IsSpace(s[0]) then TrimLeft(s[1..]) else s
  }

  function TrimRight(s: string): (r: string)
    ensures |r| <= |s|
    ensures r <= s
    ensures r != [] ==> !IsSpace(r[|r| - 1])
  {
    if s != [] && IsSpace(s[|s| - 1]) then TrimRight(s[..|s| - 1]) else s
  }

  /** strings.TrimSpace. */
  function TrimSpace(s: string): string { TrimRight(TrimLeft(s)) }

  predicate Blank(s: string) { TrimSpace(s) == "" }

  /** Neither end is a space. */
  predicate Tight(s: string) { s != [] && !IsSpace(s[0]) && !IsSpace(s[|s| - 1]) }

  lemma {:induction false} TrimTight(s: string)
    requires Tight(s)
    ensures TrimSpace(s) == s && TrimSpace(" " + s) == s && !Blank(s)
  {
    assert (" " + s)[1..] == s;
    assert TrimLeft(" " + s) == TrimLeft(s) == s;
    assert TrimRight(s) == s;
  }

  // ----- splitting and joining -----

  /** strings.Split on a one-character separator: always at least one piece. */
  function Split(s: string, sep: char): (pieces: seq<string>)
    ensures pieces != []
  {
    if s == [] then [[]]
    else
      var rest := Split(s[1..], sep);
      if s[0] == sep then [[]] + rest else [[s[0]] + rest[0]] + rest[1..]
  }

  lemma {:induction false} SplitOne(s: string, sep: char)
    requires sep !in s
    ensures Split(s, sep) == [s]
  {
    if s != [] {
      SplitOne(s[1..], sep);
      assert s == [s[0]] + s[1..];
    }
  }

  lemma {:induction false} SplitCons(s: string, sep: char, rest: string)
    requires sep !in s
    ensures Split(s + [sep] + rest, sep) == [s] + Split(rest, sep)
  {
    var all := s + [sep] + rest;
    if s == [] {
      assert all[1..] == rest;
    } else {
      SplitCons(s[1..], sep, rest);
      assert all[1..] == s[1..] + [sep] + rest;
      assert s == [s[0]] + s[1..];
      assert Split(all, sep) == [[s[0]] + s[1..]] + Split(rest, sep);
    }
  }

  /** A character in front of the pieces. */
  function Onto(c: char, sep: char, pieces: seq<string>): seq<string>
    requires pieces != []
  {
    if c == sep then [[]] + pieces else [[c] + pieces[0]] + pieces[1..]
  }

  lemma {:induction false} SplitHead(s: string, sep: char)
    requires s != []
    ensures Split(s, sep) == Onto(s[0], sep, Split(s[1..], sep))
  {
  }

  lemma {:induction false} OntoConcat(c: char, sep: char, a: seq<string>, b: seq<string>)
    requires a != []
    ensures Onto(c, sep, a + b) == Onto(c, sep, a) + b
  {
    assert (a + b)[0] == a[0] && (a + b)[1..] == a[1..] + b;
    assert [[]] + (a + b) == [[]] + a + b;
  }

  lemma {:induction false} SplitBoth(s: string, sep: char, rest: string)
    ensures Split(s + [sep] + rest, sep) == Split(s, sep) + Split(rest, sep)
  {
    hide Split, Onto;
    var all := s + [sep] + rest;
    if s == [] {
      SplitOne(s, sep);
      SplitCons(s, sep, rest);
    } else {
      SplitBoth(s[1..], sep, rest);
      assert all[0] == s[0] && all[1..] == s[1..] + [sep] + rest;
      SplitHead(s, sep);
      SplitHead(all, sep);
      OntoConcat(s[0], sep, Split(s[1..], sep), Split(rest, sep));
    }
  }

  lemma {:induction false} PiecesAreClean(s: string, sep: char, i: nat)
    requires i < |Split(s, sep)|
    ensures sep !in Split(s, sep)[i]
  {
    if s != [] {
      var rest := Split(s[1..], sep);
      if s[0] == sep {
        if i > 0 { PiecesAreClean(s[1..], sep, i - 1); }
      } else {
        PiecesAreClean(s[1..], sep, i);
      }
    }
  }

  /** strings.Join. */
  function Join(parts: seq<string>, sep: string): string {
    if parts == [] then ""
    else if |parts| == 1 then parts[0]
    else parts[0] + sep + Join(parts[1..], sep)
  }

  /** The pieces, joined, are the text. */
  lemma {:induction false} PiecesJoin(s: string, sep: char)
    ensures Join(Split(s, sep), [sep]) == s
  {
    if s != [] {
      PiecesJoin(s[1..], sep);
      var rest := Split(s[1..], sep);
      assert s == [s[0]] + s[1..];
      if s[0] == sep {
        assert ([[]] + rest)[1..] == rest;
      } else {
        assert ([[s[0]] + rest[0]] + rest[1..])[1..] == rest[1..];
      }
    }
  }

  /** The parts with a space in front of each. */
  function Spaced(parts: seq<string>): (r: seq<string>)
    ensures |r| == |parts|
  {
    if parts == [] then [] else [" " + parts[0]] + Spaced(parts[1..])
  }

  /** Splitting on the comma what was joined with comma and space. */
  lemma {:induction false} SplitJoined(parts: seq<string>)
    requires parts != [] && forall i :: 0 <= i < |parts| ==> ',' !in parts[i]
    ensures Split(Join(parts, ", "), ',') == [parts[0]] + Spaced(parts[1..])
    ensures Split(" " + Join(parts, ", "), ',') == Spaced(parts)
  {
    var head := parts[0];
    if |parts| == 1 {
      SplitOne(head, ',');
      SplitOne(" " + head, ',');
    } else {
      var rest := " " + Join(parts[1..], ", ");
      SplitJoined(parts[1..]);
      assert Join(parts, ", ") == head + [','] + rest;
      assert " " + Join(parts, ", ") == (" " + head) + [','] + rest;
      SplitCons(head, ',', rest);
      SplitCons(" " + head, ',', rest);
    }
  }

  lemma {:induction false} JoinedNotBlank(parts: seq<string>, sep: string)
    requires parts != [] && Tight(parts[0])
    ensures !Blank(Join(parts, sep))
  {
    var s := Join(parts, sep);
    assert s[0] == parts[0][0];
    TrimKeepsFirst(s);
  }

  lemma {:induction false} TrimKeepsFirst(s: string)
    requires s != [] && !IsSpace(s[0])
    ensures TrimRight(s) != [] && !Blank(s)
  {
    if IsSpace(s[|s| - 1]) {
      TrimKeepsFirst(s[..|s| - 1]);
    }
  }

  // ----- decimal numbers -----

  predicate IsDigit(c: char) { '0' <= c <= '9' }

  predicate AllDigits(s: string) { forall i :: 0 <= i < |s| ==> IsDigit(s[i]) }

  function DigitValue(c: char): nat
    requires IsDigit(c)
  {
    c as int - '0' as int
  }

  function Dec(s: string): nat
    requires AllDigits(s)
  {
    if s == [] then 0 else 10 * Dec(s[..|s| - 1]) + DigitValue(s[|s| - 1])
  }

  function DigitChar(d: nat): (c: char)
    requires d < 10
    ensures IsDigit(c) && DigitValue(c) == d
  {
    ('0' as int + d) as char
  }

  /** strconv.Itoa on the non-negative numbers this code prints. */
  function Itoa(n: nat): (s: string)
    ensures s != [] && AllDigits(s)
  {
    if n < 10 then [DigitChar(n)] else Itoa(n / 10) + [DigitChar(n % 10)]
  }

  const MAX_INT64 := 0x7fff_ffff_ffff_ffff

  /** strconv.Atoi: an optional sign, then digits only, within 64 bits. */
  function Atoi(s: string): Option<int> {
    var digits := if s != [] && (s[0] == '+' || s[0] == '-') then s[1..] else s;
    if digits == [] || !AllDigits(digits) then None
    else
      var n: int := if s[0] == '-' then 0 - Dec(digits) else Dec(digits);
      if -MAX_INT64 - 1 <= n <= MAX_INT64 then Some(n) else None
  }

  lemma {:induction false} DecItoa(n: nat)
    ensures Dec(Itoa(n)) == n
  {
    if n >= 10 {
      DecItoa(n / 10);
      assert Itoa(n)[..|Itoa(n)| - 1] == Itoa(n / 10);
    } else {
      assert Itoa(n)[..0] == [];
    }
  }

  /** Reading back what was printed. */
  lemma {:induction false} AtoiItoa(n: nat)
    requires n <= MAX_INT64
    ensures Atoi(Itoa(n)) == Some(n)
  {
    DecItoa(n);
    assert IsDigit(Itoa(n)[0]);
  }

  lemma {:induction false} ItoaTight(n: nat)
    ensures Tight(Itoa(n)) && ',' !in Itoa(n) && '-' !in Itoa(n)
  {
    var s := Itoa(n);
    assert forall c :: c in s ==> IsDigit(c);
    assert IsDigit(s[0]) && IsDigit(s[|s| - 1]);
  }
}
