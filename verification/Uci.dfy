/**
  The UCI text of the configuration: sections are written as lines and read
  back line by line. What is written comes back, ids that are handed out never
  collide, and every name is recovered from its id.
*/
module Uci {
  import opened Text

  /** One line of a section. */
  datatype Item = Opt(key: string, value: string) | Listed(key: string, value: string)

  datatype Block = Block(typ: string, id: Option<string>, items: seq<Item>)

  /** A section as the parser gathers it. */
  datatype Raw = Raw(typ: string, name: string, opts: map<string, seq<string>>)

  // ----- writing -----

  /** Single quotes, with the shell's way of putting one inside. */
  function Escaped(v: string): string {
    if v == "" then "" else (if v[0] == '\'' then "'\\''" else [v[0]]) + Escaped(v[1..])
  }

  function Q(v: string): string { "'" + Escaped(v) + "'" }

  function ItemLine(item: Item): string {
    match item
    case Opt(k, v) => "    option " + k + " " + Q(v)
    case Listed(k, v) => "    list " + k + " " + Q(v)
  }

  function HeaderLine(b: Block): string {
    match b.id
    case Some(id) => "config " + b.typ + " " + Q(id)
    case None => "config " + b.typ
  }

  function ItemLines(items: seq<Item>): seq<string> {
    if items == [] then [] else ItemLines(items[..|items| - 1]) + [ItemLine(items[|items| - 1])]
  }

  /** A section and the blank line behind it. */
  function BlockLines(b: Block): seq<string> { [HeaderLine(b)] + ItemLines(b.items) + [""] }

  function Lines(bs: seq<Block>): seq<string> {
    if bs == [] then [] else Lines(bs[..|bs| - 1]) + BlockLines(bs[|bs| - 1])
  }

  function Unlines(lines: seq<string>): string {
    if lines == [] then "" else lines[0] + "\n" + Unlines(lines[1..])
  }

  function Serialize(bs: seq<Block>): string { Unlines(Lines(bs)) }

  lemma {:induction false} UnlinesConcat(a: seq<string>, b: seq<string>)
    ensures Unlines(a + b) == Unlines(a) + Unlines(b)
  {
    if a == [] {
      assert a + b == b;
    } else {
      assert (a + b)[1..] == a[1..] + b;
      UnlinesConcat(a[1..], b);
    }
  }

  lemma {:induction false} UnlinesOne(line: string)
    ensures Unlines([line]) == line + "\n"
  {
    assert [line][1..] == [];
  }

  /** One section into the buffer: header, options and list entries, a blank line. */
  method WriteBlock(buffer: string, b: Block) returns (out: string)
    ensures out == buffer + Unlines(BlockLines(b))
  {
    hide HeaderLine, ItemLine, Unlines;
    out := buffer + HeaderLine(b) + "\n";
    UnlinesOne(HeaderLine(b));
    assert [HeaderLine(b)] + ItemLines(b.items[..0]) == [HeaderLine(b)];
    for i := 0 to |b.items|
      invariant out == buffer + Unlines([HeaderLine(b)] + ItemLines(b.items[..i]))
    {
      assert b.items[..i + 1][..i] == b.items[..i];
      ghost var so := [HeaderLine(b)] + ItemLines(b.items[..i]);
      assert so + [ItemLine(b.items[i])] == [HeaderLine(b)] + ItemLines(b.items[..i + 1]);
      UnlinesConcat(so, [ItemLine(b.items[i])]);
      UnlinesOne(ItemLine(b.items[i]));
      out := out + ItemLine(b.items[i]) + "\n";
    }
    assert b.items[..|b.items|] == b.items;
    UnlinesConcat([HeaderLine(b)] + ItemLines(b.items), [""]);
    UnlinesOne("");
    out := out + "\n";
  }

  /** The writers of Serialize, over the sections in order. */
  method WriteBlocks(bs: seq<Block>) returns (out: string)
    ensures out == Serialize(bs)
  {
    hide BlockLines, Unlines;
    out := "";
    assert Unlines([]) == "" by { NoLines(); }
    for i := 0 to |bs|
      invariant out == Unlines(Lines(bs[..i]))
    {
      assert bs[..i + 1][..i] == bs[..i];
      UnlinesConcat(Lines(bs[..i]), BlockLines(bs[i]));
      out := WriteBlock(out, bs[i]);
    }
    assert bs[..|bs|] == bs;
  }

  lemma {:induction false} NoLines()
    ensures Unlines([]) == ""
  {
  }

  // ----- reading -----

  function WordOf(s: string): (w: string)
    ensures |w| <= |s| && w == s[..|w|]
    ensures s != "" && !IsSpace(s[0]) ==> w != ""
  {
    if s == "" || IsSpace(s[0]) then "" else [s[0]] + WordOf(s[1..])
  }

  /** strings.Fields. */
  function Fields(s: string): seq<string>
    decreases |s|
  {
    var t := TrimLeft(s);
    if t == "" then [] else [WordOf(t)] + Fields(t[|WordOf(t)|..])
  }

  /** strings.Trim with one character. */
  function TrimFront(s: string, c: char): (r: string)
    ensures r == "" || r[0] != c
  {
    if s != "" && s[0] == c then TrimFront(s[1..], c) else s
  }

  function TrimBack(s: string, c: char): (r: string)
    ensures r <= s
    ensures r == "" || r[|r| - 1] != c
  {
    if s != "" && s[|s| - 1] == c then TrimBack(s[..|s| - 1], c) else s
  }

  function TrimBoth(s: string, c: char): string { TrimBack(TrimFront(s, c), c) }

  function Unq(v: string): string { TrimBoth(TrimBoth(TrimSpace(v), '\''), '"') }

  /** The section being read; open once a config line was seen. */
  datatype Reading = Reading(done: seq<Raw>, cur: Raw, open: bool)

  const NOTHING := Reading([], Raw("", "", map[]), false)

  function Close(r: Reading): seq<Raw> { if r.cur.typ != "" then r.done + [r.cur] else r.done }

  function Put(opts: map<string, seq<string>>, k: string, v: string, append: bool): map<string, seq<string>> {
    opts[k := if append && k in opts then opts[k] + [v] else [v]]
  }

  /** One line; malformed ones are skipped. */
  function ReadLine(r: Reading, text: string): Reading {
    var line := TrimSpace(text);
    var fields := Fields(line);
    if line == "" || line[0] == '#' || |fields| < 2 then r
    else if fields[0] == "config" then
      Reading(Close(r), Raw(Unq(fields[1]), if |fields| > 2 then Unq(fields[2]) else "", map[]), true)
    else if fields[0] == "option" || fields[0] == "list" then
      if !r.open || |fields| < 3 then r
      else r.(cur := r.cur.(opts := Put(r.cur.opts, Unq(fields[1]), Unq(Join(fields[2..], " ")), fields[0] == "list")))
    else r
  }

  function ReadLines(lines: seq<string>): Reading {
    if lines == [] then NOTHING else ReadLine(ReadLines(lines[..|lines| - 1]), lines[|lines| - 1])
  }

  /** The sections of a file. */
  function Parsed(text: string): seq<Raw> { Close(ReadLines(Split(text, '\n'))) }

  /** The line loop of Load. */
  method Parse(text: string) returns (sections: seq<Raw>)
    ensures sections == Parsed(text)
  {
    hide Unq, Fields;
    var lines := Split(text, '\n');
    sections := [];
    var cur := Raw("", "", map[]);
    var open := false;
    for i := 0 to |lines|
      invariant ReadLines(lines[..i]) == Reading(sections, cur, open)
    {
      assert lines[..i + 1][..i] == lines[..i];
      var line := TrimSpace(lines[i]);
      if line == "" || line[0] == '#' {
        continue;
      }
      var fields := Fields(line);
      if |fields| < 2 {
        continue;
      }
      if fields[0] == "config" {
        if cur.typ != "" {
          sections := sections + [cur];
        }
        cur := Raw(Unq(fields[1]), "", map[]);
        open := true;
        if |fields| > 2 {
          cur := cur.(name := Unq(fields[2]));
        }
      } else if fields[0] == "option" || fields[0] == "list" {
        if !open {
          continue;
        }
        if |fields| < 3 {
          continue;
        }
        var k := Unq(fields[1]);
        var v := Unq(Join(fields[2..], " "));
        if fields[0] == "option" || k !in cur.opts {
          cur := cur.(opts := cur.opts[k := [v]]);
        } else {
          cur := cur.(opts := cur.opts[k := cur.opts[k] + [v]]);
        }
      }
    }
    assert lines[..|lines|] == lines;
    if cur.typ != "" {
      sections := sections + [cur];
    }
  }

  // ----- words and values -----

  /** A directive, type, key or id: no space and no quote in it. */
  predicate Word(w: string) {
    w != "" && forall i :: 0 <= i < |w| ==> !IsSpace(w[i]) && w[i] != '\'' && w[i] != '"'
  }

  /** Every space is a blank, and no two stand together. */
  predicate SingleSpaced(v: string) {
    && (forall i :: 0 <= i < |v| && IsSpace(v[i]) ==> v[i] == ' ')
    && (forall i :: 0 <= i < |v| - 1 ==> !(IsSpace(v[i]) && IsSpace(v[i + 1])))
  }

  predicate EdgeQuoted(v: string) { v != "" && (v[0] == '"' || v[|v| - 1] == '"') }

  /** Free of single quotes, of double quotes at its ends, and single-spaced. */
  predicate Clean(v: string) { '\'' !in v && !EdgeQuoted(v) && SingleSpaced(v) }

  lemma {:induction false} EscapedPlain(v: string)
    requires '\'' !in v
    ensures Escaped(v) == v
  {
    if v != "" {
      EscapedPlain(v[1..]);
      assert v == [v[0]] + v[1..];
    }
  }

  lemma {:induction false} WordEnds(w: string, rest: string)
    requires forall i :: 0 <= i < |w| ==> !IsSpace(w[i])
    requires rest == "" || IsSpace(rest[0])
    ensures WordOf(w + rest) == w
  {
    hide IsSpace;
    if w == "" {
      assert w + rest == rest;
    } else {
      assert (w + rest)[1..] == w[1..] + rest;
      WordEnds(w[1..], rest);
      assert w == [w[0]] + w[1..];
    }
  }

  /** A word and a blank in front of a text that starts with no space. */
  lemma {:induction false} FieldsWord(w: string, rest: string)
    requires w != "" && forall i :: 0 <= i < |w| ==> !IsSpace(w[i])
    ensures Fields(w + " " + rest) == [w] + Fields(rest)
    ensures Fields(w) == [w]
  {
    var s := w + " " + rest;
    assert s == w + (" " + rest) && !IsSpace(s[0]);
    WordEnds(w, " " + rest);
    assert s[|w|..] == " " + rest;
    assert Fields(s) == [w] + Fields(" " + rest);
    assert (" " + rest)[1..] == rest;
    FieldsTrim(rest);
    WordEnds(w, "");
    assert w + "" == w && w[|w|..] == "";
  }

  lemma {:induction false} FieldsTrim(rest: string)
    ensures Fields(" " + rest) == Fields(rest)
  {
    hide IsSpace, WordOf;
    assert IsSpace(' ') by { BlankIsSpace(); }
    assert (" " + rest)[1..] == rest;
    assert TrimLeft(" " + rest) == TrimLeft(rest);
  }

  lemma {:induction false} BlankIsSpace()
    ensures IsSpace(' ')
  {
  }

  lemma {:induction false} SubSpaced(s: string, i: nat, j: nat)
    requires i <= j <= |s| && SingleSpaced(s)
    ensures SingleSpaced(s[i..j])
  {
    hide IsSpace;
    var t := s[i..j];
    assert forall k :: 0 <= k < |t| ==> t[k] == s[i + k];
    forall k | 0 <= k < |t| - 1 ensures !(IsSpace(t[k]) && IsSpace(t[k + 1])) {
      assert t[k + 1] == s[i + k + 1];
    }
  }

  /** Behind the first word of a single-spaced text stands one blank and a tight rest. */
  lemma {:induction false} AfterWord(s: string, n: nat)
    requires SingleSpaced(s) && 0 < n < |s| && IsSpace(s[n]) && !IsSpace(s[|s| - 1])
    ensures n + 1 < |s| && s[n] == ' ' && s == s[..n] + " " + s[n + 1..]
    ensures SingleSpaced(s[n + 1..]) && !IsSpace(s[n + 1])
  {
    SubSpaced(s, n + 1, |s|);
    assert s[n + 1..|s|] == s[n + 1..];
  }

  /** A single-spaced text that is tight at both ends comes back from its fields. */
  lemma {:induction false} FieldsHead(s: string)
    requires s != "" && !IsSpace(s[0])
    ensures Fields(s) == [WordOf(s)] + Fields(s[|WordOf(s)|..])
  {
    hide IsSpace;
    assert TrimLeft(s) == s;
  }

  lemma {:induction false} JoinHead(w: string, ws: seq<string>)
    requires ws != []
    ensures Join([w] + ws, " ") == w + " " + Join(ws, " ")
  {
    assert ([w] + ws)[1..] == ws;
  }

  lemma {:induction false} JoinFields(s: string)
    requires SingleSpaced(s) && s != "" && !IsSpace(s[0]) && !IsSpace(s[|s| - 1])
    ensures Fields(s) != [] && Join(Fields(s), " ") == s
    decreases |s|
  {
    hide IsSpace, SingleSpaced, WordOf, Join, TrimLeft;
    var w := WordOf(s);
    WordStops(s);
    FieldsHead(s);
    if |w| == |s| {
      assert s[|w|..] == "" && s == w;
      assert [w] + [] == [w];
      assert Fields("") == [] && Join([w], " ") == w by { LoneField(w); }
    } else {
      AfterWord(s, |w|);
      var tail := s[|w| + 1..];
      assert tail[0] == s[|w| + 1] && tail[|tail| - 1] == s[|s| - 1];
      JoinFields(tail);
      FieldsTrim(tail);
      assert s[|w|..] == " " + tail;
      JoinHead(w, Fields(tail));
    }
  }

  lemma {:induction false} LoneField(w: string)
    ensures Fields("") == [] && Join([w], " ") == w
  {
  }

  lemma {:induction false} WordStops(s: string)
    ensures var w := WordOf(s); |w| == |s| || IsSpace(s[|w|])
    ensures forall i :: 0 <= i < |WordOf(s)| ==> !IsSpace(s[i])
  {
    hide IsSpace;
    if s != "" && !IsSpace(s[0]) {
      WordStops(s[1..]);
      var w := WordOf(s[1..]);
      assert forall i :: 0 < i <= |w| ==> s[i] == s[1..][i - 1];
    }
  }

  lemma {:induction false} TrimFrontNone(s: string, c: char)
    requires s == "" || s[0] != c
    ensures TrimFront(s, c) == s
  {
  }

  lemma {:induction false} TrimBackNone(s: string, c: char)
    requires s == "" || s[|s| - 1] != c
    ensures TrimBack(s, c) == s
  {
  }

  lemma {:induction false} TrimBackLast(s: string, c: char)
    requires s == "" || s[|s| - 1] != c
    ensures TrimBack(s + [c], c) == s
  {
    assert (s + [c])[..|s|] == s;
    TrimBackNone(s, c);
  }

  /** Quoted and unquoted. */
  lemma {:induction false} UnqQ(v: string)
    requires '\'' !in v && !EdgeQuoted(v)
    ensures Unq(Q(v)) == v
  {
    hide IsSpace, TrimSpace, Escaped;
    EscapedPlain(v);
    var s := Q(v);
    QuoteIsNoSpace();
    TrimTight(s);
    assert s[1..] == v + "'";
    if v == "" {
      assert "'"[1..] == "" && s[1..] == "'";
      assert TrimFront(s, '\'') == "";
    } else {
      TrimFrontNone(v + "'", '\'');
      assert TrimFront(s, '\'') == v + "'";
      TrimBackLast(v, '\'');
    }
    assert TrimBoth(s, '\'') == v;
    TrimFrontNone(v, '"');
    TrimBackNone(v, '"');
  }

  lemma {:induction false} QuoteIsNoSpace()
    ensures !IsSpace('\'') && IsSpace(' ')
  {
  }

  lemma {:induction false} UnqWord(w: string)
    requires Word(w)
    ensures Unq(w) == w
  {
    hide IsSpace, TrimSpace;
    TrimTight(w);
    TrimFrontNone(w, '\'');
    TrimBackNone(w, '\'');
    TrimFrontNone(w, '"');
    TrimBackNone(w, '"');
  }

  lemma {:induction false} QSpaced(v: string)
    requires '\'' !in v && SingleSpaced(v)
    ensures SingleSpaced(Q(v)) && !IsSpace(Q(v)[0]) && !IsSpace(Q(v)[|Q(v)| - 1])
  {
    hide IsSpace;
    EscapedPlain(v);
    QuoteIsNoSpace();
    var s := Q(v);
    assert forall i :: 0 < i < |s| - 1 ==> s[i] == v[i - 1];
  }

  /** What a written value is read as. */
  function ReadBack(v: string): string { Unq(Join(Fields(Q(v)), " ")) }

  lemma {:induction false} CleanReadsBack(v: string)
    requires Clean(v)
    ensures ReadBack(v) == v && Fields(Q(v)) != []
  {
    hide IsSpace, Unq, Fields;
    QSpaced(v);
    JoinFields(Q(v));
    UnqQ(v);
  }

  // ----- lines come back -----

  lemma {:induction false} TrimLeftBlanks(s: string)
    requires s != "" && !IsSpace(s[0])
    ensures TrimLeft(s) == s && TrimLeft("    " + s) == s
  {
    BlankIsSpace();
    assert ("    " + s)[1..] == "   " + s && ("   " + s)[1..] == "  " + s
        && ("  " + s)[1..] == " " + s && (" " + s)[1..] == s;
    assert TrimLeft(" " + s) == s;
    assert TrimLeft("  " + s) == s;
    assert TrimLeft("   " + s) == s;
  }

  lemma {:induction false} TrimIndented(s: string)
    requires s != "" && !IsSpace(s[0]) && !IsSpace(s[|s| - 1])
    ensures TrimSpace("    " + s) == s && TrimSpace(s) == s
  {
    TrimLeftBlanks(s);
    assert TrimRight(s) == s;
  }

  predicate OneLiner(s: string) { '\n' !in s }

  predicate ItemPlain(item: Item) { Word(item.key) && OneLiner(item.value) }

  predicate ItemOk(item: Item) { Word(item.key) && Clean(item.value) }

  lemma {:induction false} QEnds(v: string)
    ensures Q(v) != "" && !IsSpace(Q(v)[0]) && !IsSpace(Q(v)[|Q(v)| - 1]) && Fields(Q(v)) != []
  {
    hide IsSpace, Fields, Escaped;
    QuoteIsNoSpace();
    FieldsHead(Q(v));
  }

  /** An option or list line, as the parser splits it. */
  lemma {:induction false} ItemFields(directive: string, k: string, v: string)
    requires Word(directive) && Word(k)
    ensures var line := TrimSpace("    " + directive + " " + k + " " + Q(v));
            && line != "" && line[0] == directive[0]
            && Fields(line) == [directive, k] + Fields(Q(v)) && Fields(Q(v)) != []
  {
    hide IsSpace, Fields, TrimSpace, Escaped;
    var s := directive + " " + k + " " + Q(v);
    QEnds(v);
    assert s[0] == directive[0] && s[|s| - 1] == Q(v)[|Q(v)| - 1];
    assert "    " + directive + " " + k + " " + Q(v) == "    " + s;
    TrimIndented(s);
    FieldsWord(directive, k + " " + Q(v));
    FieldsWord(k, Q(v));
    assert s == directive + " " + (k + " " + Q(v));
  }

  lemma {:induction false} Directives()
    ensures Word("option") && Word("list") && Word("config") && "option" != "config"
        && "list" != "config" && "list" != "option"
  {
    assert "option"[0] == 'o' && "list"[0] == 'l' && "config"[0] == 'c';
  }

  /** One item is read into the open section. */
  lemma {:induction false} ItemRead(r: Reading, item: Item)
    requires r.open && ItemPlain(item)
    ensures ReadLine(r, ItemLine(item)) ==
        r.(cur := r.cur.(opts := Put(r.cur.opts, item.key, ReadBack(item.value), item.Listed?)))
  {
    hide IsSpace, Fields, TrimSpace, Q, Unq, Word;
    Directives();
    var directive := if item.Opt? then "option" else "list";
    ItemFields(directive, item.key, item.value);
    UnqWord(item.key);
    var line := ItemLine(item);
    assert line == "    " + directive + " " + item.key + " " + Q(item.value);
    var fields := Fields(TrimSpace(line));
    assert fields[2..] == Fields(Q(item.value));
    assert directive[0] != '#';
  }

  predicate BlockPlain(b: Block) {
    Word(b.typ) && (b.id.Some? ==> Word(b.id.value)) && forall i :: 0 <= i < |b.items| ==> ItemPlain(b.items[i])
  }

  predicate BlockOk(b: Block) {
    Word(b.typ) && (b.id.Some? ==> Word(b.id.value)) && forall i :: 0 <= i < |b.items| ==> ItemOk(b.items[i])
  }

  lemma {:induction false} HeaderRead(r: Reading, b: Block)
    requires Word(b.typ) && (b.id.Some? ==> Word(b.id.value))
    ensures ReadLine(r, HeaderLine(b)) ==
        Reading(Close(r), Raw(b.typ, if b.id.Some? then b.id.value else "", map[]), true)
  {
    hide IsSpace, Fields, TrimSpace, Q, Unq;
    Directives();
    UnqWord(b.typ);
    var s := HeaderLine(b);
    match b.id {
      case Some(id) =>
        WordIsClean(id);
        QWord(id);
        UnqQ(id);
        FieldsWord("config", b.typ + " " + Q(id));
        FieldsWord(b.typ, Q(id));
        FieldsWord(Q(id), "");
        assert s == "config" + " " + (b.typ + " " + Q(id));
        assert s[|s| - 1] == Q(id)[|Q(id)| - 1];
        TrimIndented(s);
        assert Fields(s) == ["config", b.typ, Q(id)];
      case None =>
        FieldsWord("config", b.typ);
        FieldsWord(b.typ, "");
        assert s == "config" + " " + b.typ;
        assert s[|s| - 1] == b.typ[|b.typ| - 1];
        TrimIndented(s);
        assert Fields(s) == ["config", b.typ];
    }
  }

  lemma {:induction false} WordIsClean(w: string)
    requires Word(w)
    ensures Clean(w)
  {
    hide IsSpace;
  }

  lemma {:induction false} QWord(w: string)
    requires Word(w)
    ensures Q(w) != "" && forall i :: 0 <= i < |Q(w)| ==> !IsSpace(Q(w)[i])
  {
    hide IsSpace;
    EscapedPlain(w);
    QuoteIsNoSpace();
  }

  function OptsOf(items: seq<Item>): map<string, seq<string>> {
    if items == [] then map[]
    else
      var item := items[|items| - 1];
      Put(OptsOf(items[..|items| - 1]), item.key, item.value, item.Listed?)
  }

  function RawOf(b: Block): Raw { Raw(b.typ, if b.id.Some? then b.id.value else "", OptsOf(b.items)) }

  /** The items with each value as it is read. */
  function RereadItems(items: seq<Item>): (r: seq<Item>)
    ensures |r| == |items|
  {
    if items == [] then []
    else
      var item := items[|items| - 1];
      RereadItems(items[..|items| - 1]) + [item.(value := ReadBack(item.value))]
  }

  function Reread(b: Block): Block { b.(items := RereadItems(b.items)) }

  function RereadAll(bs: seq<Block>): seq<Block> {
    if bs == [] then [] else RereadAll(bs[..|bs| - 1]) + [Reread(bs[|bs| - 1])]
  }

  /** Reading more lines after those read. */
  function ReadOn(r: Reading, lines: seq<string>): Reading {
    if lines == [] then r else ReadLine(ReadOn(r, lines[..|lines| - 1]), lines[|lines| - 1])
  }

  lemma {:induction false} ReadConcat(a: seq<string>, b: seq<string>)
    ensures ReadLines(a + b) == ReadOn(ReadLines(a), b)
  {
    hide ReadLine;
    if b == [] {
      assert a + b == a;
    } else {
      assert (a + b)[..|a + b| - 1] == a + b[..|b| - 1];
      ReadConcat(a, b[..|b| - 1]);
    }
  }

  lemma {:induction false} ReadOnConcat(r: Reading, a: seq<string>, b: seq<string>)
    ensures ReadOn(r, a + b) == ReadOn(ReadOn(r, a), b)
  {
    hide ReadLine;
    if b == [] {
      assert a + b == a;
    } else {
      assert (a + b)[..|a + b| - 1] == a + b[..|b| - 1];
      ReadOnConcat(r, a, b[..|b| - 1]);
    }
  }

  lemma {:induction false} ItemsRead(r: Reading, items: seq<Item>)
    requires r.open && r.cur.opts == map[] && forall i :: 0 <= i < |items| ==> ItemPlain(items[i])
    ensures ReadOn(r, ItemLines(items)) == r.(cur := r.cur.(opts := OptsOf(RereadItems(items))))
  {
    hide ReadLine, ItemLine, ItemPlain, ReadBack;
    if items != [] {
      var front, last := items[..|items| - 1], items[|items| - 1];
      ItemsRead(r, front);
      ItemRead(ReadOn(r, ItemLines(front)), last);
      assert (ItemLines(front) + [ItemLine(last)])[..|ItemLines(front)|] == ItemLines(front);
      assert RereadItems(items)[..|front|] == RereadItems(front);
    }
  }

  lemma {:induction false} OneLine(r: Reading, line: string)
    ensures ReadOn(r, [line]) == ReadLine(r, line)
  {
    hide ReadLine;
    assert [line][..0] == [];
  }

  lemma {:induction false} BlankLine(r: Reading)
    ensures ReadLine(r, "") == r
  {
    hide Unq;
    assert TrimSpace("") == "";
  }

  lemma {:induction false} BlockRead(r: Reading, b: Block)
    requires BlockPlain(b)
    ensures ReadOn(r, BlockLines(b)) == Reading(Close(r), RawOf(Reread(b)), true)
  {
    hide ReadLine, HeaderLine, ItemLines, ItemPlain, Word, OptsOf, ReadOn, RereadItems;
    var h, items := [HeaderLine(b)], ItemLines(b.items);
    ReadOnConcat(r, h + items, [""]);
    ReadOnConcat(r, h, items);
    OneLine(r, HeaderLine(b));
    HeaderRead(r, b);
    ItemsRead(ReadLine(r, HeaderLine(b)), b.items);
    OneLine(ReadOn(r, h + items), "");
    BlankLine(ReadOn(r, h + items));
  }

  function RawsOf(bs: seq<Block>): seq<Raw> {
    if bs == [] then [] else RawsOf(bs[..|bs| - 1]) + [RawOf(bs[|bs| - 1])]
  }

  lemma {:induction false} BlocksRead(bs: seq<Block>)
    requires forall i :: 0 <= i < |bs| ==> BlockPlain(bs[i])
    ensures Close(ReadLines(Lines(bs))) == RawsOf(RereadAll(bs))
  {
    hide BlockLines, BlockPlain, ReadLine, OptsOf, RereadItems;
    if bs != [] {
      var front, last := bs[..|bs| - 1], bs[|bs| - 1];
      BlocksRead(front);
      ReadConcat(Lines(front), BlockLines(last));
      BlockRead(ReadLines(Lines(front)), last);
      assert last.typ != "" by { TypedBlock(last); }
      assert RereadAll(bs)[..|RereadAll(front)|] == RereadAll(front);
    }
  }

  lemma {:induction false} TypedBlock(b: Block)
    requires BlockPlain(b)
    ensures b.typ != ""
  {
  }

  // ----- the text as a whole -----

  lemma {:induction false} SplitUnlines(lines: seq<string>)
    requires forall i :: 0 <= i < |lines| ==> OneLiner(lines[i])
    ensures Split(Unlines(lines), '\n') == lines + [""]
  {
    hide Split;
    if lines == [] {
      SplitOne("", '\n');
    } else {
      SplitUnlines(lines[1..]);
      SplitCons(lines[0], '\n', Unlines(lines[1..]));
      assert Unlines(lines) == lines[0] + ['\n'] + Unlines(lines[1..]);
      assert lines + [""] == [lines[0]] + (lines[1..] + [""]);
    }
  }

  lemma {:induction false} CleanIsOneLine(v: string)
    requires Clean(v)
    ensures OneLiner(v)
  {
    assert IsSpace('\n');
  }

  lemma {:induction false} QuotedIsOneLine(v: string)
    requires OneLiner(v)
    ensures OneLiner(Q(v))
  {
    EscapedIsOneLine(v);
  }

  lemma {:induction false} EscapedIsOneLine(v: string)
    requires OneLiner(v)
    ensures OneLiner(Escaped(v))
  {
    if v != "" { EscapedIsOneLine(v[1..]); }
  }

  lemma {:induction false} WordIsOneLine(w: string)
    requires Word(w)
    ensures OneLiner(w)
  {
    assert IsSpace('\n');
  }

  lemma {:induction false} ItemLinesOk(items: seq<Item>)
    requires forall i :: 0 <= i < |items| ==> ItemPlain(items[i])
    ensures forall i :: 0 <= i < |ItemLines(items)| ==> OneLiner(ItemLines(items)[i])
  {
    hide Q, Word;
    if items != [] {
      ItemLinesOk(items[..|items| - 1]);
      WordIsOneLine(items[|items| - 1].key);
      QuotedIsOneLine(items[|items| - 1].value);
    }
  }

  lemma {:induction false} BlockLinesOk(b: Block)
    requires BlockPlain(b)
    ensures forall i :: 0 <= i < |BlockLines(b)| ==> OneLiner(BlockLines(b)[i])
  {
    hide Q, Word, ItemLines;
    ItemLinesOk(b.items);
    WordIsOneLine(b.typ);
    if b.id.Some? {
      WordIsOneLine(b.id.value);
      QuotedIsOneLine(b.id.value);
    }
    var items := ItemLines(b.items);
    assert OneLiner(HeaderLine(b));
    assert forall i :: 0 < i <= |items| ==> BlockLines(b)[i] == items[i - 1];
  }

  lemma {:induction false} LinesOk(bs: seq<Block>)
    requires forall i :: 0 <= i < |bs| ==> BlockPlain(bs[i])
    ensures forall i :: 0 <= i < |Lines(bs)| ==> OneLiner(Lines(bs)[i])
  {
    hide BlockPlain, BlockLines, OneLiner;
    if bs != [] {
      LinesOk(bs[..|bs| - 1]);
      BlockLinesOk(bs[|bs| - 1]);
    }
  }

  /** Serialising then parsing gives every section back, in order, each one-line value as it is read. */
  lemma {:induction false} ParseRereads(bs: seq<Block>)
    requires forall i :: 0 <= i < |bs| ==> BlockPlain(bs[i])
    ensures Parsed(Serialize(bs)) == RawsOf(RereadAll(bs))
  {
    hide BlockPlain, Lines, ReadLine, OneLiner, Split, RereadAll;
    LinesOk(bs);
    SplitUnlines(Lines(bs));
    BlocksRead(bs);
    ReadConcat(Lines(bs), [""]);
    OneLine(ReadLines(Lines(bs)), "");
    BlankLine(ReadLines(Lines(bs)));
  }

  lemma {:induction false} OkItemsStay(items: seq<Item>)
    requires forall i :: 0 <= i < |items| ==> ItemOk(items[i])
    ensures RereadItems(items) == items && forall i :: 0 <= i < |items| ==> ItemPlain(items[i])
  {
    hide Word, Clean, ReadBack, OneLiner;
    if items != [] {
      OkItemsStay(items[..|items| - 1]);
      CleanReadsBack(items[|items| - 1].value);
      CleanIsOneLine(items[|items| - 1].value);
    }
  }

  lemma {:induction false} OkBlocksStay(bs: seq<Block>)
    requires forall i :: 0 <= i < |bs| ==> BlockOk(bs[i])
    ensures RereadAll(bs) == bs && forall i :: 0 <= i < |bs| ==> BlockPlain(bs[i])
  {
    hide Word, ItemOk, ItemPlain, RereadItems;
    if bs != [] {
      OkBlocksStay(bs[..|bs| - 1]);
      OkItemsStay(bs[|bs| - 1].items);
    }
  }

  /** Clean values are read as they were written, so every section, option and list comes back, in order. */
  lemma {:induction false} ParseUndoesSerialize(bs: seq<Block>)
    requires forall i :: 0 <= i < |bs| ==> BlockOk(bs[i])
    ensures Parsed(Serialize(bs)) == RawsOf(bs)
  {
    hide BlockOk, BlockPlain, RereadAll, RawsOf, Parsed, Serialize;
    OkBlocksStay(bs);
    ParseRereads(bs);
  }

  // ----- which values come back -----

  lemma {:induction false} FrontSpaced(s: string, c: char)
    requires SingleSpaced(s)
    ensures SingleSpaced(TrimFront(s, c))
  {
    hide SingleSpaced;
    if s != "" && s[0] == c {
      SubSpaced(s, 1, |s|);
      assert s[1..|s|] == s[1..];
      FrontSpaced(s[1..], c);
    }
  }

  lemma {:induction false} BackSpaced(s: string, c: char)
    requires SingleSpaced(s)
    ensures SingleSpaced(TrimBack(s, c))
  {
    hide SingleSpaced;
    if s != "" && s[|s| - 1] == c {
      SubSpaced(s, 0, |s| - 1);
      assert s[0..|s| - 1] == s[..|s| - 1];
      BackSpaced(s[..|s| - 1], c);
    }
  }

  lemma {:induction false} TrimSpaced(s: string)
    requires SingleSpaced(s)
    ensures SingleSpaced(TrimSpace(s))
  {
    hide SingleSpaced, IsSpace;
    LeftSpaced(s);
    var t := TrimLeft(s);
    SubSpaced(t, 0, |TrimRight(t)|);
    assert TrimRight(t) == t[0..|TrimRight(t)|];
  }

  lemma {:induction false} LeftSpaced(s: string)
    requires SingleSpaced(s)
    ensures SingleSpaced(TrimLeft(s))
  {
    hide SingleSpaced, IsSpace;
    if s != "" && IsSpace(s[0]) {
      SubSpaced(s, 1, |s|);
      assert s[1..|s|] == s[1..];
      LeftSpaced(s[1..]);
    }
  }

  lemma {:induction false} FieldsAreWords(s: string)
    ensures forall i :: 0 <= i < |Fields(s)| ==> Fields(s)[i] != "" && Spaceless(Fields(s)[i])
    decreases |s|
  {
    hide IsSpace;
    var t := TrimLeft(s);
    if t != "" {
      WordStops(t);
      FieldsAreWords(t[|WordOf(t)|..]);
    }
  }

  predicate Spaceless(w: string) { forall k :: 0 <= k < |w| ==> !IsSpace(w[k]) }

  /** Words joined by blanks are single-spaced. */
  lemma {:induction false} JoinedSpaced(ws: seq<string>)
    requires forall i :: 0 <= i < |ws| ==> ws[i] != "" && Spaceless(ws[i])
    ensures SingleSpaced(Join(ws, " "))
    ensures ws != [] ==> Join(ws, " ") != "" && !IsSpace(Join(ws, " ")[0])
  {
    hide IsSpace;
    if |ws| > 1 {
      JoinedSpaced(ws[1..]);
      var w, rest := ws[0], Join(ws[1..], " ");
      var s := w + " " + rest;
      assert forall i :: 0 <= i < |w| ==> s[i] == w[i];
      assert s[|w|] == ' ';
      assert forall i :: |w| < i < |s| ==> s[i] == rest[i - |w| - 1];
    }
  }

  // Each single quote is written with one backslash more, and reading keeps every backslash.

  function Count(s: string, c: char): nat {
    if s == "" then 0 else (if s[0] == c then 1 else 0) + Count(s[1..], c)
  }

  lemma {:induction false} CountConcat(a: string, b: string, c: char)
    ensures Count(a + b, c) == Count(a, c) + Count(b, c)
  {
    if a == "" {
      assert a + b == b;
    } else {
      assert (a + b)[1..] == a[1..] + b;
      CountConcat(a[1..], b, c);
    }
  }

  lemma {:induction false} CountNone(s: string, c: char)
    ensures Count(s, c) == 0 <==> c !in s
  {
    if s != "" {
      CountNone(s[1..], c);
      assert s == [s[0]] + s[1..];
    }
  }

  lemma {:induction false} EscapedCount(v: string)
    ensures Count(Escaped(v), '\\') == Count(v, '\\') + Count(v, '\'')
  {
    if v != "" {
      EscapedCount(v[1..]);
      var head := if v[0] == '\'' then "'\\''" else [v[0]];
      CountConcat(head, Escaped(v[1..]), '\\');
      assert "'\\''"[1..] == "\\''" && "\\''"[1..] == "''" && "''"[1..] == "'";
      assert Count("'", '\\') == 0;
    }
  }

  lemma {:induction false} QuotedCount(v: string)
    ensures Count(Q(v), '\\') == Count(v, '\\') + Count(v, '\'')
  {
    EscapedCount(v);
    CountConcat("'", Escaped(v), '\\');
    CountConcat("'" + Escaped(v), "'", '\\');
  }

  lemma {:induction false} TrimLeftCount(s: string, c: char)
    requires !IsSpace(c)
    ensures Count(TrimLeft(s), c) == Count(s, c)
  {
    hide IsSpace;
    if s != "" && IsSpace(s[0]) { TrimLeftCount(s[1..], c); }
  }

  lemma {:induction false} TrimRightCount(s: string, c: char)
    requires !IsSpace(c)
    ensures Count(TrimRight(s), c) == Count(s, c)
  {
    hide IsSpace;
    if s != "" && IsSpace(s[|s| - 1]) {
      LastCount(s, c);
      TrimRightCount(s[..|s| - 1], c);
    }
  }

  lemma {:induction false} LastCount(s: string, c: char)
    requires s != "" && s[|s| - 1] != c
    ensures Count(s[..|s| - 1], c) == Count(s, c)
  {
    var last := [s[|s| - 1]];
    assert s == s[..|s| - 1] + last;
    CountConcat(s[..|s| - 1], last, c);
  }

  lemma {:induction false} TrimBothCount(s: string, q: char, c: char)
    requires q != c
    ensures Count(TrimBoth(s, q), c) == Count(s, c)
  {
    TrimFrontCount(s, q, c);
    TrimBackCount(TrimFront(s, q), q, c);
  }

  lemma {:induction false} TrimFrontCount(s: string, q: char, c: char)
    requires q != c
    ensures Count(TrimFront(s, q), c) == Count(s, c)
  {
    if s != "" && s[0] == q { TrimFrontCount(s[1..], q, c); }
  }

  lemma {:induction false} TrimBackCount(s: string, q: char, c: char)
    requires q != c
    ensures Count(TrimBack(s, q), c) == Count(s, c)
  {
    if s != "" && s[|s| - 1] == q {
      LastCount(s, c);
      TrimBackCount(s[..|s| - 1], q, c);
    }
  }

  /** Splitting at spaces and joining with blanks keeps every other character. */
  lemma {:induction false} FieldsCount(s: string, c: char)
    requires !IsSpace(c)
    ensures Count(Join(Fields(s), " "), c) == Count(s, c)
    decreases |s|
  {
    hide IsSpace, TrimLeft, WordOf, Join, Count;
    var t := TrimLeft(s);
    TrimLeftCount(s, c);
    if t == "" {
      assert Join([], " ") == "" by { NothingJoined(); }
    } else {
      var w := WordOf(t);
      var rest := t[|w|..];
      assert t == w + rest;
      CountConcat(w, rest, c);
      FieldsCount(rest, c);
      JoinedCount(w, Fields(rest), c);
    }
  }

  lemma {:induction false} NothingJoined()
    ensures Join([], " ") == ""
  {
  }

  lemma {:induction false} JoinedCount(w: string, ws: seq<string>, c: char)
    requires !IsSpace(c)
    ensures Count(Join([w] + ws, " "), c) == Count(w, c) + Count(Join(ws, " "), c)
  {
    BlankIsSpace();
    if ws == [] {
      assert [w] + ws == [w];
    } else {
      JoinHead(w, ws);
      assert Count(" ", c) == 0 by { CountNone(" ", c); }
      CountConcat(w, " ", c);
      CountConcat(w + " ", Join(ws, " "), c);
    }
  }

  lemma {:induction false} ReadBackCount(v: string)
    ensures Count(ReadBack(v), '\\') == Count(v, '\\') + Count(v, '\'')
  {
    hide Q, Fields, Join, TrimLeft, TrimRight, TrimBoth;
    BackslashIsNoSpace();
    QuotedCount(v);
    var s := Join(Fields(Q(v)), " ");
    FieldsCount(Q(v), '\\');
    TrimLeftCount(s, '\\');
    TrimRightCount(TrimLeft(s), '\\');
    TrimBothCount(TrimSpace(s), '\'', '\\');
    TrimBothCount(TrimBoth(TrimSpace(s), '\''), '"', '\\');
  }

  lemma {:induction false} BackslashIsNoSpace()
    ensures !IsSpace('\\')
  {
  }

  /** A value comes back exactly when it has no single quote, no double quote at its ends and only single blanks. */
  lemma {:induction false} ComesBackExactly(v: string)
    ensures ReadBack(v) == v <==> Clean(v)
  {
    hide IsSpace, Q, Fields, Join, SingleSpaced, TrimSpace, ReadBack, Count;
    if Clean(v) {
      CleanReadsBack(v);
    }
    ReadBackCount(v);
    CountNone(v, '\'');
    ReadBackShape(v);
  }

  predicate Shaped(v: string) { SingleSpaced(v) && !EdgeQuoted(v) }

  lemma {:induction false} ReadBackShape(v: string)
    ensures Shaped(ReadBack(v))
  {
    hide IsSpace, Q, Fields, Unq, Shaped;
    FieldsAreWords(Q(v));
    WordsShape(Fields(Q(v)));
  }

  /** Whatever is read is single-spaced and not edged with double quotes. */
  lemma {:induction false} WordsShape(ws: seq<string>)
    requires forall i :: 0 <= i < |ws| ==> ws[i] != "" && Spaceless(ws[i])
    ensures Shaped(Unq(Join(ws, " ")))
  {
    hide IsSpace, Join, SingleSpaced, TrimSpace, Spaceless;
    var s := Join(ws, " ");
    JoinedSpaced(ws);
    TrimSpaced(s);
    var a := TrimSpace(s);
    FrontSpaced(a, '\'');
    BackSpaced(TrimFront(a, '\''), '\'');
    var b := TrimBoth(a, '\'');
    FrontSpaced(b, '"');
    BackSpaced(TrimFront(b, '"'), '"');
    NoEdgeQuotes(b);
  }

  predicate AllShaped(opts: map<string, seq<string>>) {
    forall k, i :: k in opts && 0 <= i < |opts[k]| ==> Shaped(opts[k][i])
  }

  predicate ReadingShaped(r: Reading) {
    AllShaped(r.cur.opts) && forall i :: 0 <= i < |r.done| ==> AllShaped(r.done[i].opts)
  }

  lemma {:induction false} PutShaped(opts: map<string, seq<string>>, k: string, v: string, append: bool)
    requires AllShaped(opts) && Shaped(v)
    ensures AllShaped(Put(opts, k, v, append))
  {
    hide Shaped;
  }

  lemma {:induction false} LineShaped(r: Reading, text: string)
    requires ReadingShaped(r)
    ensures ReadingShaped(ReadLine(r, text))
  {
    hide IsSpace, TrimSpace, Unq, Shaped, Put, AllShaped, Spaceless, Join;
    var fields := Fields(TrimSpace(text));
    FieldsAreWords(TrimSpace(text));
    assert AllShaped(map[]) by { NoneShaped(); }
    if |fields| > 2 {
      WordsShape(fields[2..]);
      PutShaped(r.cur.opts, Unq(fields[1]), Unq(Join(fields[2..], " ")), fields[0] == "list");
    }
  }

  lemma {:induction false} NoneShaped()
    ensures AllShaped(map[])
  {
  }

  lemma {:induction false} LinesShaped(lines: seq<string>)
    ensures ReadingShaped(ReadLines(lines))
  {
    hide ReadLine, AllShaped, ReadingShaped;
    if lines == [] {
      assert ReadingShaped(NOTHING) by { NothingShaped(); }
    } else {
      LinesShaped(lines[..|lines| - 1]);
      LineShaped(ReadLines(lines[..|lines| - 1]), lines[|lines| - 1]);
    }
  }

  lemma {:induction false} NothingShaped()
    ensures ReadingShaped(NOTHING)
  {
  }

  /** No parsed text, whatever it is, gives a value of another shape. */
  lemma {:induction false} ParsedShaped(text: string)
    ensures forall i :: 0 <= i < |Parsed(text)| ==> AllShaped(Parsed(text)[i].opts)
  {
    hide ReadLines, AllShaped, Split;
    LinesShaped(Split(text, '\n'));
  }

  lemma {:induction false} PutFirst(k: string, v: string)
    ensures Put(map[], k, v, false) == map[k := [v]]
  {
  }

  lemma {:induction false} OneOption(typ: string, id: Option<string>, k: string, v: string)
    ensures RawsOf([Block(typ, id, [Opt(k, v)])]) == [Raw(typ, if id.Some? then id.value else "", map[k := [v]])]
    ensures RereadAll([Block(typ, id, [Opt(k, v)])]) == [Block(typ, id, [Opt(k, ReadBack(v))])]
  {
    hide ReadBack;
    var items := [Opt(k, v)];
    var bs := [Block(typ, id, items)];
    assert items[..0] == [] && bs[..0] == [];
    PutFirst(k, v);
    assert OptsOf(items[..0]) == map[] && OptsOf(items) == Put(map[], k, v, false);
    assert RereadItems(items[..0]) == [] && RereadAll(bs[..0]) == [] && RawsOf(bs[..0]) == [];
    assert RereadItems(items) == RereadItems(items[..0]) + [Opt(k, ReadBack(v))];
    assert Reread(bs[0]) == Block(typ, id, [Opt(k, ReadBack(v))]);
    assert RawsOf(bs) == RawsOf(bs[..0]) + [RawOf(bs[0])];
    assert RereadAll(bs) == RereadAll(bs[..0]) + [Reread(bs[0])];
  }

  /** In a file: a section with an option is read as it was written exactly when the option's value is clean. */
  lemma {:induction false} OptionComesBackExactly(typ: string, id: Option<string>, k: string, v: string)
    requires Word(typ) && Word(k) && (id.Some? ==> Word(id.value))
    ensures var bs := [Block(typ, id, [Opt(k, v)])]; Parsed(Serialize(bs)) == RawsOf(bs) <==> Clean(v)
  {
    hide Word, ReadBack, Parsed, Serialize, RawsOf, RereadAll, Clean, IsSpace, Shaped;
    var bs := [Block(typ, id, [Opt(k, v)])];
    OneOption(typ, id, k, v);
    OneOption(typ, id, k, ReadBack(v));
    if OneLiner(v) {
      assert BlockPlain(bs[0]);
      ParseRereads(bs);
      ComesBackExactly(v);
      assert map[k := [v]][k][0] == v && map[k := [ReadBack(v)]][k][0] == ReadBack(v);
    } else {
      if Clean(v) { CleanIsOneLine(v); }
      ParsedShaped(Serialize(bs));
      TwoLinesUnshaped(v);
      var opts := map[k := [v]];
      assert opts[k][0] == v && !AllShaped(opts);
      var raws := Parsed(Serialize(bs));
      assert |raws| > 0 ==> raws[0].opts != opts;
    }
  }

  lemma {:induction false} TwoLinesUnshaped(v: string)
    requires !OneLiner(v)
    ensures !Shaped(v)
  {
    var i :| 0 <= i < |v| && v[i] == '\n';
    assert IsSpace('\n');
  }

  lemma {:induction false} NoEdgeQuotes(s: string)
    ensures !EdgeQuoted(TrimBoth(s, '"'))
  {
    var f := TrimFront(s, '"');
    var t := TrimBack(f, '"');
    assert t != "" ==> t[0] == f[0];
  }

  // ----- ids -----

  /** Letters, digits and underscores. */
  predicate Identifier(s: string) {
    s != "" && forall i :: 0 <= i < |s| ==>
        'A' <= s[i] <= 'Z' || 'a' <= s[i] <= 'z' || '0' <= s[i] <= '9' || s[i] == '_'
  }

  const PREFIXES: set<string> := {"sec_", "sub_", "pp_", "rp_", "vpn_", "zp_", "zs_"}

  /** A section that asks for an id: the prefix of its type and its name. */
  datatype Request = Request(prefix: string, name: string)

  /** The id handed out, if any, and the ids then in use. */
  function Header(seen: set<string>, r: Request): (Option<string>, set<string>) {
    var id := r.prefix + r.name;
    (if id !in seen && Identifier(r.name) then Some(id) else None, seen + {id})
  }

  function HandOut(seen: set<string>, rs: seq<Request>): (seq<Option<string>>, set<string>) {
    if rs == [] then ([], seen)
    else
      var (ids, used) := HandOut(seen, rs[..|rs| - 1]);
      var (id, now) := Header(used, rs[|rs| - 1]);
      (ids + [id], now)
  }

  /** The ids in use while a configuration is written. */
  class IdTable {
    var seen: set<string>

    constructor (reserved: set<string>)
      ensures seen == reserved
    {
      seen := reserved;
    }

    /** sectionHeader: an id of its own, or none and a name option. */
    method SectionHeader(r: Request) returns (id: Option<string>)
      modifies this
      ensures (id, seen) == Header(old(seen), r)
      ensures id.Some? ==> id.value !in old(seen) && id.value in seen
    {
      var want := r.prefix + r.name;
      if want !in seen && Identifier(r.name) {
        seen := seen + {want};
        return Some(want);
      }
      seen := seen + {want};
      return None;
    }
  }

  /** Ids handed out are fresh and stay distinct, across all types. */
  lemma {:induction false} IdsAreDistinct(seen: set<string>, rs: seq<Request>)
    ensures var (ids, used) := HandOut(seen, rs);
            && |ids| == |rs| && seen <= used
            && (forall i :: 0 <= i < |ids| && ids[i].Some? ==> ids[i].value !in seen && ids[i].value in used)
            && (forall i, j :: 0 <= i < j < |ids| && ids[i].Some? && ids[j].Some? ==> ids[i] != ids[j])
  {
    hide Identifier;
    if rs != [] {
      IdsAreDistinct(seen, rs[..|rs| - 1]);
    }
  }

  /** The id of a section is in use once it was asked for, given out or not. */
  lemma {:induction false} UsedIds(seen: set<string>, rs: seq<Request>)
    ensures forall id :: id in HandOut(seen, rs).1 <==> id in seen || exists i :: 0 <= i < |rs| && WantedId(rs[i]) == id
  {
    hide Identifier;
    if rs != [] {
      UsedIds(seen, rs[..|rs| - 1]);
    }
  }

  /** An id is prefix and name, given exactly when the name is an identifier and nobody asked for it before. */
  lemma {:induction false} IdGivenExactly(seen: set<string>, rs: seq<Request>, i: nat)
    requires i < |rs|
    ensures |HandOut(seen, rs).0| == |rs|
    ensures HandOut(seen, rs).0[i] ==
            if && Identifier(rs[i].name) && WantedId(rs[i]) !in seen
               && forall j :: 0 <= j < i ==> WantedId(rs[j]) != WantedId(rs[i])
            then Some(WantedId(rs[i])) else None
  {
    hide Identifier;
    var n := |rs| - 1;
    IdsAreDistinct(seen, rs);
    IdsAreDistinct(seen, rs[..n]);
    if i < n {
      IdGivenExactly(seen, rs[..n], i);
    } else {
      UsedIds(seen, rs[..n]);
    }
  }

  function WantedId(r: Request): string { r.prefix + r.name }

  /** idName: the name option, else the id without its prefix. */
  function IdName(opts: map<string, seq<string>>, id: string, prefix: string): string {
    if "name" in opts && opts["name"] != [] && opts["name"][0] != "" then opts["name"][0]
    else if prefix <= id && id[|prefix|..] != "" then id[|prefix|..]
    else id
  }

  /** The section that is written for a request. */
  function Written(typ: string, id: Option<string>, name: string, items: seq<Item>): Block {
    Block(typ, id, (if id.None? then [Opt("name", name)] else []) + items)
  }

  lemma {:induction false} OtherKeysStay(first: seq<Item>, items: seq<Item>, key: string)
    requires forall i :: 0 <= i < |items| ==> items[i].key != key
    ensures key in OptsOf(first + items) <==> key in OptsOf(first)
    ensures key in OptsOf(first) ==> OptsOf(first + items)[key] == OptsOf(first)[key]
  {
    if items == [] {
      assert first + items == first;
    } else {
      assert (first + items)[..|first + items| - 1] == first + items[..|items| - 1];
      OtherKeysStay(first, items[..|items| - 1], key);
    }
  }

  /** Every name is recovered: duplicates, names that are no identifiers, and names that carry a prefix already. */
  lemma {:induction false} NamesComeBack(seen: set<string>, r: Request, typ: string, items: seq<Item>)
    requires r.prefix != "" && forall i :: 0 <= i < |items| ==> items[i].key != "name"
    ensures var raw := RawOf(Written(typ, Header(seen, r).0, r.name, items));
        IdName(raw.opts, raw.name, r.prefix) == r.name
  {
    hide Put;
    var id := Header(seen, r).0;
    if id.None? {
      var first := [Opt("name", r.name)];
      OtherKeysStay(first, items, "name");
      assert first[..0] == [];
      assert OptsOf(first) == map["name" := [r.name]] by { PutFirst("name", r.name); }
    } else {
      OtherKeysStay([], items, "name");
      assert [] + items == items;
      assert id.value[|r.prefix|..] == r.name;
    }
  }

  /** A section to be written: its type, what it asks an id for, and its other options. */
  datatype Entry = Entry(typ: string, request: Request, items: seq<Item>)

  function Requests(es: seq<Entry>): seq<Request> {
    if es == [] then [] else Requests(es[..|es| - 1]) + [es[|es| - 1].request]
  }

  /** The sections of a file, each under the id handed out for it. */
  function WrittenFile(seen: set<string>, es: seq<Entry>): seq<Block> {
    if es == [] then []
    else
      var e := es[|es| - 1];
      var used := HandOut(seen, Requests(es[..|es| - 1])).1;
      WrittenFile(seen, es[..|es| - 1]) + [Written(e.typ, Header(used, e.request).0, e.request.name, e.items)]
  }

  predicate EntryOk(e: Entry) {
    && Word(e.typ) && e.request.prefix in PREFIXES && Clean(e.request.name)
    && forall i :: 0 <= i < |e.items| ==> ItemOk(e.items[i]) && e.items[i].key != "name"
  }

  lemma {:induction false} IdentifierIsWord(prefix: string, name: string)
    requires prefix in PREFIXES && Identifier(name)
    ensures Word(prefix + name)
  {
    assert Identifier(prefix);
    var id := prefix + name;
    assert forall i :: 0 <= i < |prefix| ==> id[i] == prefix[i];
    assert forall i :: |prefix| <= i < |id| ==> id[i] == name[i - |prefix|];
  }

  lemma {:induction false} WrittenIsOk(used: set<string>, e: Entry)
    requires EntryOk(e)
    ensures BlockOk(Written(e.typ, Header(used, e.request).0, e.request.name, e.items))
    ensures e.request.prefix != ""
  {
    hide Word, Clean, Identifier;
    assert Word("name") by { NameIsWord(); }
    if Identifier(e.request.name) { IdentifierIsWord(e.request.prefix, e.request.name); }
  }

  lemma {:induction false} NameIsWord()
    ensures Word("name")
  {
  }

  /** The section read back is of that type and gives the name that was asked for. */
  predicate Named(raw: Raw, e: Entry) {
    raw.typ == e.typ && IdName(raw.opts, raw.name, e.request.prefix) == e.request.name
  }

  lemma {:induction false} WrittenNames(seen: set<string>, es: seq<Entry>)
    requires forall i :: 0 <= i < |es| ==> EntryOk(es[i])
    ensures var bs := WrittenFile(seen, es);
      && |bs| == |RawsOf(bs)| == |es|
      && (forall i :: 0 <= i < |bs| ==> BlockOk(bs[i]))
      && (forall i :: 0 <= i < |bs| ==> Named(RawsOf(bs)[i], es[i]))
  {
    hide BlockOk, HandOut, Header, OptsOf, IdName, Word, Clean;
    if es != [] {
      var front, e := es[..|es| - 1], es[|es| - 1];
      WrittenNames(seen, front);
      var used := HandOut(seen, Requests(front)).1;
      var bs := WrittenFile(seen, front);
      var b := Written(e.typ, Header(used, e.request).0, e.request.name, e.items);
      WrittenIsOk(used, e);
      NamesComeBack(used, e.request, e.typ, e.items);
      assert (bs + [b])[..|bs|] == bs;
      assert RawsOf(bs + [b]) == RawsOf(bs) + [RawOf(b)];
    }
  }

  /**
    A whole file gives every name back: written with the ids handed out for its
    sections and parsed again, its sections come in order, each with its type
    and the name it was written for.
  */
  lemma {:induction false} FilesGiveNamesBack(seen: set<string>, es: seq<Entry>)
    requires forall i :: 0 <= i < |es| ==> EntryOk(es[i])
    ensures var raws := Parsed(Serialize(WrittenFile(seen, es)));
      |raws| == |es| && forall i :: 0 <= i < |es| ==> Named(raws[i], es[i])
  {
    hide BlockOk, EntryOk, Named, WrittenFile, Parsed, Serialize, RawsOf;
    WrittenNames(seen, es);
    ParseUndoesSerialize(WrittenFile(seen, es));
  }

  /** Types never share an id: no prefix is the start of another. */
  lemma {:induction false} PrefixesApart(p: string, a: string, q: string, b: string)
    requires p in PREFIXES && q in PREFIXES && p + a == q + b
    ensures p == q && a == b
  {
    var s := p + a;
    assert s[0] == p[0] == q[0] && s[1] == p[1] == q[1];
    assert p == q;
    assert a == s[|p|..] && b == s[|q|..];
  }

  // ----- the text itself -----

  /** A section as it stands in the file: a header, an indented line for each option and list entry, a blank line. */
  lemma {:induction false} SectionText(typ: string, id: string, k: string, v: string, l: string, w: string)
    requires '\'' !in id && '\'' !in v && '\'' !in w
    ensures Lines([Block(typ, Some(id), [Opt(k, v), Listed(l, w)])])
            == ["config " + typ + " '" + id + "'",
                "    option " + k + " '" + v + "'",
                "    list " + l + " '" + w + "'",
                ""]
  {
    hide Escaped;
    EscapedPlain(id);
    EscapedPlain(v);
    EscapedPlain(w);
    var first, second := Opt(k, v), Listed(l, w);
    var b := Block(typ, Some(id), [first, second]);
    assert ItemLine(first) == "    option " + k + " '" + v + "'";
    assert ItemLine(second) == "    list " + l + " '" + w + "'";
    assert HeaderLine(b) == "config " + typ + " '" + id + "'";
    hide HeaderLine, ItemLine, Q;
    TwoItems(first, second);
    assert [b][..0] == [] && Lines([]) == [];
    assert Lines([b]) == BlockLines(b);
  }

  lemma {:induction false} TwoItems(a: Item, b: Item)
    ensures ItemLines([a, b]) == [ItemLine(a), ItemLine(b)]
  {
    hide ItemLine;
    assert [a, b][..1] == [a] && [a][..0] == [];
    assert ItemLines([a]) == [ItemLine(a)];
  }

  /** The file is its lines, each with its line feed. */
  lemma {:induction false} LinesText(lines: seq<string>, i: nat)
    requires i < |lines|
    ensures Unlines(lines) == Unlines(lines[..i]) + (lines[i] + "\n") + Unlines(lines[i + 1..])
  {
    UnlinesConcat(lines[..i], lines[i..]);
    assert lines == lines[..i] + lines[i..] && lines[i..][1..] == lines[i + 1..];
  }

  /** An id of an older file, without the prefix or nothing but it, is its own name. */
  lemma {:induction false} BareIdIsName(opts: map<string, seq<string>>, id: string, prefix: string)
    requires "name" !in opts && (!(prefix <= id) || id == prefix)
    ensures IdName(opts, id, prefix) == id
  {
    assert id == prefix ==> id[|prefix|..] == "";
  }

  // ----- options and lists -----

  /** An option replaces what its key held, a list entry goes behind it, and neither touches another key. */
  lemma {:induction false} NextItem(items: seq<Item>, item: Item)
    ensures var was, now := OptsOf(items), OptsOf(items + [item]);
            && item.key in now
            && now[item.key] == (if item.Listed? && item.key in was then was[item.key] else []) + [item.value]
            && forall k :: k != item.key ==> (k in now <==> k in was) && (k in was ==> now[k] == was[k])
  {
    assert (items + [item])[..|items|] == items;
  }

  // ----- lines that say nothing -----

  predicate AllSpace(s: string) { forall i :: 0 <= i < |s| ==> IsSpace(s[i]) }

  predicate NoSpace(s: string) { forall i :: 0 <= i < |s| ==> !IsSpace(s[i]) }

  /** A first word, and what is behind it; a word that is no directive, or stands alone, says nothing. */
  predicate Idle(word: string, rest: string) {
    && word != "" && NoSpace(word) && (rest == "" || IsSpace(rest[0]))
    && (word[0] == '#' || word !in {"config", "option", "list"} || AllSpace(rest))
  }

  /** A blank line, a comment, an unknown directive, or a single word. */
  ghost predicate Noise(line: string) {
    AllSpace(line)
    || exists indent, word, rest :: AllSpace(indent) && line == indent + word + rest && Idle(word, rest)
  }

  lemma {:induction false} IndentGoes(indent: string, s: string)
    requires AllSpace(indent) && (s == "" || !IsSpace(s[0]))
    ensures TrimLeft(indent + s) == s
  {
    if indent == "" {
      assert indent + s == s;
    } else {
      assert (indent + s)[1..] == indent[1..] + s;
      IndentGoes(indent[1..], s);
    }
  }

  lemma {:induction false} TailGoes(word: string, rest: string) returns (kept: string)
    requires word != "" && NoSpace(word) && (rest == "" || IsSpace(rest[0]))
    ensures TrimRight(word + rest) == word + kept && (kept == "" || IsSpace(kept[0]))
    ensures AllSpace(rest) ==> kept == ""
  {
    var s := word + rest;
    if rest == "" {
      return "";
    }
    assert s[|s| - 1] == rest[|rest| - 1];
    if IsSpace(s[|s| - 1]) {
      assert s[..|s| - 1] == word + rest[..|rest| - 1];
      kept := TailGoes(word, rest[..|rest| - 1]);
    } else {
      kept := rest;
    }
  }

  lemma {:induction false} WordIsFirst(word: string, rest: string)
    requires NoSpace(word) && (rest == "" || IsSpace(rest[0]))
    ensures WordOf(word + rest) == word
  {
    if word == "" {
      assert word + rest == rest;
    } else {
      assert (word + rest)[1..] == word[1..] + rest;
      WordIsFirst(word[1..], rest);
    }
  }

  lemma {:induction false} FirstField(word: string, rest: string)
    requires word != "" && NoSpace(word) && (rest == "" || IsSpace(rest[0]))
    ensures Fields(word + rest) == [word] + Fields(rest)
  {
    var s := word + rest;
    assert TrimLeft(s) == s;
    WordIsFirst(word, rest);
    assert s[|word|..] == rest;
  }

  /** Such a line leaves the reading as it was. */
  lemma {:induction false} NoiseIsIdle(r: Reading, line: string)
    requires Noise(line)
    ensures ReadLine(r, line) == r
  {
    hide IsSpace, Fields, Unq, WordOf;
    if AllSpace(line) {
      IndentGoes(line, "");
      assert line + "" == line;
    } else {
      var indent, word, rest :| AllSpace(indent) && line == indent + word + rest && Idle(word, rest);
      assert line == indent + (word + rest);
      IndentGoes(indent, word + rest);
      var kept := TailGoes(word, rest);
      FirstField(word, kept);
      if AllSpace(rest) { NoFields(); }
      assert TrimSpace(line) == word + kept;
    }
  }

  lemma {:induction false} NoFields()
    ensures Fields("") == []
  {
  }

  lemma {:induction false} NoiseAmong(a: seq<string>, line: string, b: seq<string>)
    requires Noise(line)
    ensures ReadLines(a + [line] + b) == ReadLines(a + b)
  {
    hide ReadLine, Noise;
    var all := a + [line] + b;
    if b == [] {
      assert all[..|all| - 1] == a && a + b == a;
      NoiseIsIdle(ReadLines(a), line);
    } else {
      var n := |b| - 1;
      assert all[..|all| - 1] == a + [line] + b[..n] && (a + b)[..|a + b| - 1] == a + b[..n];
      NoiseAmong(a, line, b[..n]);
    }
  }

  /** A comment, a blank line or an unknown directive anywhere in any file changes nothing that is read. */
  lemma {:induction false} NoiseIsIgnored(before: string, line: string, behind: string)
    requires Noise(line) && '\n' !in line
    ensures Parsed(before + "\n" + line + "\n" + behind) == Parsed(before + "\n" + behind)
  {
    hide Split, Noise;
    var a, b := Split(before, '\n'), Split(behind, '\n');
    var tail := line + "\n" + behind;
    SplitBoth(before, '\n', tail);
    SplitCons(line, '\n', behind);
    SplitBoth(before, '\n', behind);
    assert before + "\n" + line + "\n" + behind == before + ['\n'] + tail;
    assert a + ([line] + b) == a + [line] + b;
    NoiseAmong(a, line, b);
  }
}
