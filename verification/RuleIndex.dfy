/**
  The lazy index over rule providers: lists are parsed one by one, in name
  order, only while the query is unanswered. A fresh index answers as a scan of
  every provider would; a used one agrees on whether there is an answer.
*/
module RuleIndex {
  import opened Text

  datatype Kind = Exact | Suffix | Keyword | OtherKind

  datatype Rule = Rule(kind: Kind, value: string)

  /** What parsing a provider's file gives: nothing, text rules, or a binary domain set asked by lookup. */
  datatype Content =
    | Unreadable
    | TextRules(rules: seq<Rule>)
    | DomainSet(lookup: string -> Option<string>)

  datatype Provider = Provider(name: string, section: string, enabled: bool, path: string, content: Content)

  datatype Answer = Answer(provider: string, section: string, rule: Rule)

  datatype SetEntry = SetEntry(lookup: string -> Option<string>, provider: string, section: string)

  // ----- what the lists say -----

  function EntriesFrom(p: Provider, rules: seq<Rule>): seq<Answer> {
    if rules == [] then []
    else EntriesFrom(p, rules[..|rules| - 1]) + [Answer(p.name, p.section, rules[|rules| - 1])]
  }

  function EntriesOf(p: Provider): seq<Answer> {
    if p.content.TextRules? then EntriesFrom(p, p.content.rules) else []
  }

  function SetsOf(p: Provider): seq<SetEntry> {
    if p.content.DomainSet? then [SetEntry(p.content.lookup, p.name, p.section)] else []
  }

  function AllEntries(ps: seq<Provider>): seq<Answer> {
    if ps == [] then [] else AllEntries(ps[..|ps| - 1]) + EntriesOf(ps[|ps| - 1])
  }

  function AllSets(ps: seq<Provider>): seq<SetEntry> {
    if ps == [] then [] else AllSets(ps[..|ps| - 1]) + SetsOf(ps[|ps| - 1])
  }

  /** The first entry of a kind with that value. */
  function First(entries: seq<Answer>, kind: Kind, value: string): Option<Answer> {
    if entries == [] then None
    else
      var was, e := First(entries[..|entries| - 1], kind, value), entries[|entries| - 1];
      if was.None? && e.rule == Rule(kind, value) then Some(e) else was
  }

  /** The domain and what follows each of its dots, longest first. */
  function Tails(d: string): seq<string> { [d] + After(d) }

  /** What follows each dot, up to an empty rest. */
  function After(d: string): seq<string> {
    if d == "" then []
    else if d[0] != '.' then After(d[1..])
    else if d[1..] == "" then []
    else [d[1..]] + After(d[1..])
  }

  function FirstSuffix(entries: seq<Answer>, tails: seq<string>): Option<Answer> {
    if tails == [] then None
    else
      var was := FirstSuffix(entries, tails[..|tails| - 1]);
      if was.Some? then was else First(entries, Suffix, tails[|tails| - 1])
  }

  function FirstSet(sets: seq<SetEntry>, d: string): Option<Answer> {
    if sets == [] then None
    else
      var was, e := FirstSet(sets[..|sets| - 1], d), sets[|sets| - 1];
      if was.Some? then was
      else if e.lookup(d).Some? then Some(Answer(e.provider, e.section, Rule(Suffix, e.lookup(d).value)))
      else None
  }

  function OrElse<T>(a: Option<T>, b: Option<T>): Option<T> { if a.Some? then a else b }

  /** Exact entries, then suffixes from the longest, then the binary sets. */
  function Lookup(entries: seq<Answer>, sets: seq<SetEntry>, d: string): Option<Answer> {
    OrElse(First(entries, Exact, d), OrElse(FirstSuffix(entries, Tails(d)), FirstSet(sets, d)))
  }

  predicate PartAt(s: string, part: string, i: nat) { i + |part| <= |s| && s[i..i + |part|] == part }

  predicate Contains(s: string, part: string) { exists i :: 0 <= i <= |s| && PartAt(s, part, i) }

  function FirstKeyword(entries: seq<Answer>, query: string): Option<Answer> {
    if entries == [] then None
    else
      var was, e := FirstKeyword(entries[..|entries| - 1], query), entries[|entries| - 1];
      if was.None? && e.rule.kind.Keyword? && Contains(query, e.rule.value) then Some(e) else was
  }

  function ProviderAnswer(p: Provider, d: string): Option<Answer> { Lookup(EntriesOf(p), SetsOf(p), d) }

  /** The eager scan: the first provider with an answer of its own. */
  function Scan(ps: seq<Provider>, d: string): Option<Answer> {
    if ps == [] then None else OrElse(Scan(ps[..|ps| - 1], d), ProviderAnswer(ps[|ps| - 1], d))
  }

  /** A scan of everything, and the keywords when nothing else answers. */
  function EagerMatch(ps: seq<Provider>, query: string, d: string): Option<Answer> {
    OrElse(Scan(ps, d), FirstKeyword(AllEntries(ps), query))
  }

  // ----- name order -----

  /** Go's order on strings. */
  predicate NameLe(a: string, b: string) {
    a == "" || (b != "" && (a[0] < b[0] || (a[0] == b[0] && NameLe(a[1..], b[1..]))))
  }

  lemma {:induction false} NamesCompare(a: string, b: string)
    ensures NameLe(a, b) || NameLe(b, a)
  {
    if a != "" && b != "" { NamesCompare(a[1..], b[1..]); }
  }

  lemma {:induction false} NamesChain(a: string, b: string, c: string)
    requires NameLe(a, b) && NameLe(b, c)
    ensures NameLe(a, c)
  {
    if a != "" && a[0] == b[0] == c[0] { NamesChain(a[1..], b[1..], c[1..]); }
  }

  function Usable(ps: seq<Provider>): seq<Provider> {
    if ps == [] then []
    else Usable(ps[..|ps| - 1]) + if ps[|ps| - 1].enabled && ps[|ps| - 1].path != "" then [ps[|ps| - 1]] else []
  }

  /** Behind every provider whose name is not greater. */
  function Insert(ps: seq<Provider>, p: Provider): seq<Provider> {
    if ps == [] || NameLe(ps[|ps| - 1].name, p.name) then ps + [p]
    else Insert(ps[..|ps| - 1], p) + [ps[|ps| - 1]]
  }

  function ByName(ps: seq<Provider>): seq<Provider> {
    if ps == [] then [] else Insert(ByName(ps[..|ps| - 1]), ps[|ps| - 1])
  }

  predicate NameOrdered(ps: seq<Provider>) {
    forall i, j :: 0 <= i < j < |ps| ==> NameLe(ps[i].name, ps[j].name)
  }

  lemma {:induction false} InsertKeepsOrder(ps: seq<Provider>, p: Provider)
    requires NameOrdered(ps)
    ensures NameOrdered(Insert(ps, p))
    ensures forall i :: 0 <= i < |Insert(ps, p)| ==>
              Insert(ps, p)[i] == p || exists k :: 0 <= k < |ps| && Insert(ps, p)[i] == ps[k]
  {
    hide NameLe;
    if ps == [] || NameLe(ps[|ps| - 1].name, p.name) {
      forall i | 0 <= i < |ps| ensures NameLe(ps[i].name, p.name) {
        if i < |ps| - 1 { NamesChain(ps[i].name, ps[|ps| - 1].name, p.name); }
      }
    } else {
      var front, last := ps[..|ps| - 1], ps[|ps| - 1];
      InsertKeepsOrder(front, p);
      NamesCompare(p.name, last.name);
      var ins := Insert(front, p);
      forall i | 0 <= i < |ins| ensures NameLe(ins[i].name, last.name) {
        if ins[i] != p {
          var k :| 0 <= k < |front| && ins[i] == front[k];
          assert ps[k] == front[k];
        }
      }
      assert forall k :: 0 <= k < |front| ==> front[k] == ps[k];
    }
  }

  lemma {:induction false} ByNameOrdered(ps: seq<Provider>)
    ensures NameOrdered(ByName(ps))
  {
    if ps != [] {
      ByNameOrdered(ps[..|ps| - 1]);
      InsertKeepsOrder(ByName(ps[..|ps| - 1]), ps[|ps| - 1]);
    }
  }

  /** The enabled providers with a file, sorted by name without disturbing ties. */
  method SortByName(providers: seq<Provider>) returns (sorted: seq<Provider>)
    ensures sorted == ByName(Usable(providers)) && NameOrdered(sorted)
  {
    hide NameOrdered, Insert;
    var enabled: seq<Provider> := [];
    for i := 0 to |providers|
      invariant enabled == Usable(providers[..i])
    {
      assert providers[..i + 1][..i] == providers[..i];
      if !providers[i].enabled || providers[i].path == "" {
        continue;
      }
      enabled := enabled + [providers[i]];
    }
    assert providers[..|providers|] == providers;
    sorted := [];
    for i := 0 to |enabled|
      invariant sorted == ByName(enabled[..i])
    {
      assert enabled[..i + 1][..i] == enabled[..i];
      sorted := Insert(sorted, enabled[i]);
    }
    assert enabled[..|enabled|] == enabled;
    ByNameOrdered(enabled);
  }

  // ----- lists one behind the other -----

  lemma {:induction false} FirstConcat(a: seq<Answer>, b: seq<Answer>, kind: Kind, value: string)
    ensures First(a + b, kind, value) == OrElse(First(a, kind, value), First(b, kind, value))
  {
    if b == [] {
      assert a + b == a;
    } else {
      assert (a + b)[..|a + b| - 1] == a + b[..|b| - 1];
      FirstConcat(a, b[..|b| - 1], kind, value);
    }
  }

  lemma {:induction false} SuffixConcat(a: seq<Answer>, b: seq<Answer>, tails: seq<string>)
    requires FirstSuffix(a, tails).None?
    ensures FirstSuffix(a + b, tails) == FirstSuffix(b, tails)
  {
    hide First;
    if tails != [] {
      SuffixConcat(a, b, tails[..|tails| - 1]);
      FirstConcat(a, b, Suffix, tails[|tails| - 1]);
    }
  }

  lemma {:induction false} SetConcat(a: seq<SetEntry>, b: seq<SetEntry>, d: string)
    ensures FirstSet(a + b, d) == OrElse(FirstSet(a, d), FirstSet(b, d))
  {
    if b == [] {
      assert a + b == a;
    } else {
      assert (a + b)[..|a + b| - 1] == a + b[..|b| - 1];
      SetConcat(a, b[..|b| - 1], d);
    }
  }

  /** Behind lists that do not answer, a provider answers as it would alone. */
  lemma {:induction false} LookupConcat(a: seq<Answer>, s: seq<SetEntry>, b: seq<Answer>, t: seq<SetEntry>, d: string)
    requires Lookup(a, s, d).None?
    ensures Lookup(a + b, s + t, d) == Lookup(b, t, d)
  {
    hide First, FirstSuffix, FirstSet, Tails;
    FirstConcat(a, b, Exact, d);
    SuffixConcat(a, b, Tails(d));
    SetConcat(s, t, d);
  }

  lemma {:induction false} SuffixGrows(a: seq<Answer>, b: seq<Answer>, tails: seq<string>)
    ensures FirstSuffix(a + b, tails).Some? <==> FirstSuffix(a, tails).Some? || FirstSuffix(b, tails).Some?
  {
    hide First;
    if tails != [] {
      SuffixGrows(a, b, tails[..|tails| - 1]);
      FirstConcat(a, b, Suffix, tails[|tails| - 1]);
    }
  }

  /** Whether lists answer together is whether one of them does. */
  lemma {:induction false} LookupGrows(a: seq<Answer>, s: seq<SetEntry>, b: seq<Answer>, t: seq<SetEntry>, d: string)
    ensures Lookup(a + b, s + t, d).Some? <==> Lookup(a, s, d).Some? || Lookup(b, t, d).Some?
  {
    hide First, FirstSuffix, FirstSet, Tails;
    FirstConcat(a, b, Exact, d);
    SuffixGrows(a, b, Tails(d));
    SetConcat(s, t, d);
  }

  lemma {:induction false} NoAnswer(d: string)
    ensures Lookup([], [], d).None?
  {
    NoSuffix(Tails(d));
  }

  lemma {:induction false} NoSuffix(tails: seq<string>)
    ensures FirstSuffix([], tails).None?
  {
    if tails != [] { NoSuffix(tails[..|tails| - 1]); }
  }

  /** Some provider answers exactly when the merged lists do. */
  lemma {:induction false} ScanIsMerged(ps: seq<Provider>, d: string)
    ensures Scan(ps, d).Some? <==> Lookup(AllEntries(ps), AllSets(ps), d).Some?
  {
    hide Lookup, EntriesOf, SetsOf;
    if ps == [] {
      NoAnswer(d);
    } else {
      ScanIsMerged(ps[..|ps| - 1], d);
      LookupGrows(AllEntries(ps[..|ps| - 1]), AllSets(ps[..|ps| - 1]),
          EntriesOf(ps[|ps| - 1]), SetsOf(ps[|ps| - 1]), d);
    }
  }

  // ----- the index -----

  ghost predicate Indexed(m: map<string, Answer>, entries: seq<Answer>, kind: Kind) {
    forall k :: (k in m <==> First(entries, kind, k).Some?) && (k in m ==> First(entries, kind, k) == Some(m[k]))
  }

  lemma {:induction false} FirstSnoc(entries: seq<Answer>, e: Answer, kind: Kind, value: string)
    ensures First(entries + [e], kind, value) ==
            if First(entries, kind, value).None? && e.rule == Rule(kind, value) then Some(e)
            else First(entries, kind, value)
  {
    assert (entries + [e])[..|entries|] == entries;
  }

  /** One more entry in a map that keeps the first of each value. */
  lemma {:induction false} IndexedSnoc(m: map<string, Answer>, entries: seq<Answer>, kind: Kind, e: Answer)
    requires Indexed(m, entries, kind)
    ensures Indexed(if e.rule.kind == kind && e.rule.value !in m then m[e.rule.value := e] else m, entries + [e], kind)
  {
    hide First;
    forall k ensures First(entries + [e], kind, k) ==
                     if First(entries, kind, k).None? && e.rule == Rule(kind, k) then Some(e)
                     else First(entries, kind, k)
    {
      FirstSnoc(entries, e, kind, k);
    }
  }

  /** The keyword entries, in order. */
  function Keywords(entries: seq<Answer>): seq<Answer> {
    if entries == [] then []
    else
      var last := entries[|entries| - 1];
      Keywords(entries[..|entries| - 1]) + if last.rule.kind.Keyword? then [last] else []
  }

  lemma {:induction false} KeywordsOnly(entries: seq<Answer>, query: string)
    ensures FirstKeyword(Keywords(entries), query) == FirstKeyword(entries, query)
  {
    hide Contains;
    if entries != [] {
      var front, last := entries[..|entries| - 1], entries[|entries| - 1];
      KeywordsOnly(front, query);
      if last.rule.kind.Keyword? {
        assert (Keywords(front) + [last])[..|Keywords(front)|] == Keywords(front);
      } else {
        assert Keywords(front) + [] == Keywords(front);
      }
    }
  }

  class RuleProviderIndex {
    var pending: seq<Provider>
    var domainExact: map<string, Answer>
    var domainSuffix: map<string, Answer>
    var domainSets: seq<SetEntry>
    var keywords: seq<Answer>
    ghost var parsed: seq<Provider>

    /** The index holds what the parsed providers say. */
    ghost predicate Valid()
      reads this
    {
      && Indexed(domainExact, AllEntries(parsed), Exact)
      && Indexed(domainSuffix, AllEntries(parsed), Suffix)
      && domainSets == AllSets(parsed)
      && keywords == Keywords(AllEntries(parsed))
    }

    /** NewRuleProviderIndex: the enabled providers with a file, by name, none parsed. */
    constructor (providers: seq<Provider>)
      ensures Valid() && parsed == [] && pending == ByName(Usable(providers)) && NameOrdered(pending)
    {
      var sorted := SortByName(providers);
      pending := sorted;
      domainExact, domainSuffix, domainSets, keywords := map[], map[], [], [];
      parsed := [];
    }

    /** The loop over what follows each dot. */
    method LookupSuffix(domain: string) returns (r: Option<Answer>)
      requires Valid()
      ensures r == FirstSuffix(AllEntries(parsed), Tails(domain))
    {
      hide First, AllEntries, After, FirstSuffix;
      ghost var tails := Tails(domain);
      ghost var entries := AllEntries(parsed);
      NextSuffix(entries, tails, 0);
      if domain in domainSuffix {
        return Some(domainSuffix[domain]);
      }
      var rest := domain;
      ghost var i := 1;
      while true
        invariant 1 <= i <= |tails| && tails[i..] == After(rest)
        invariant FirstSuffix(entries, tails[..i]).None?
        decreases |rest|
      {
        AfterDot(rest);
        var dot := IndexByte(rest, '.');
        if dot.None? {
          break;
        }
        rest := rest[dot.value + 1..];
        if rest == "" {
          break;
        }
        assert tails[i] == rest && tails[i + 1..] == tails[i..][1..];
        NextSuffix(entries, tails, i);
        if rest in domainSuffix {
          return Some(domainSuffix[rest]);
        }
        i := i + 1;
      }
      assert tails[..i] == tails;
      return None;
    }

    /** lookup, in the lists parsed so far. */
    method LookupParsed(domain: string) returns (r: Option<Answer>)
      requires Valid()
      ensures r == Lookup(AllEntries(parsed), AllSets(parsed), domain)
    {
      hide First, AllEntries, AllSets, Tails, FirstSuffix;
      if domain in domainExact {
        return Some(domainExact[domain]);
      }
      r := LookupSuffix(domain);
      if r.Some? {
        return r;
      }
      for i := 0 to |domainSets|
        invariant FirstSet(domainSets[..i], domain).None?
      {
        assert domainSets[..i + 1][..i] == domainSets[..i];
        var found := domainSets[i].lookup(domain);
        if found.Some? {
          SetStays(domainSets, i + 1, domain);
          return Some(Answer(domainSets[i].provider, domainSets[i].section, Rule(Suffix, found.value)));
        }
      }
      assert domainSets[..|domainSets|] == domainSets;
      return None;
    }

    /** parseNext: folds the next pending provider in. */
    method ParseNext() returns (more: bool)
      requires Valid()
      modifies this
      ensures Valid() && parsed + pending == old(parsed + pending)
      ensures more <==> old(pending) != []
      ensures more ==> pending == old(pending)[1..] && parsed == old(parsed) + [old(pending)[0]]
      ensures !more ==> parsed == old(parsed) && pending == old(pending)
    {
      hide First, AllEntries, AllSets, Keywords, Indexed;
      if pending == [] {
        return false;
      }
      var rp := pending[0];
      pending := pending[1..];
      ghost var was := AllEntries(parsed);
      OneMore(parsed, rp);
      parsed := parsed + [rp];
      more := true;
      match rp.content {
        case Unreadable =>
          assert was + [] == was;
        case DomainSet(lookup) =>
          domainSets := domainSets + [SetEntry(lookup, rp.name, rp.section)];
          assert was + [] == was;
        case TextRules(rules) =>
          FoldRules(rp, rules, was);
      }
    }

    method FoldRules(rp: Provider, rules: seq<Rule>, ghost was: seq<Answer>)
      requires Indexed(domainExact, was, Exact) && Indexed(domainSuffix, was, Suffix) && keywords == Keywords(was)
      modifies `domainExact, `domainSuffix, `keywords
      ensures Indexed(domainExact, was + EntriesFrom(rp, rules), Exact)
      ensures Indexed(domainSuffix, was + EntriesFrom(rp, rules), Suffix)
      ensures keywords == Keywords(was + EntriesFrom(rp, rules))
    {
      hide Indexed, Keywords, EntriesFrom;
      NothingFolded(rp, rules, was);
      for i := 0 to |rules|
        invariant Indexed(domainExact, was + EntriesFrom(rp, rules[..i]), Exact)
        invariant Indexed(domainSuffix, was + EntriesFrom(rp, rules[..i]), Suffix)
        invariant keywords == Keywords(was + EntriesFrom(rp, rules[..i]))
      {
        ghost var so := was + EntriesFrom(rp, rules[..i]);
        var info := Answer(rp.name, rp.section, rules[i]);
        FoldStep(rp, rules, was, i);
        IndexedSnoc(domainExact, so, Exact, info);
        IndexedSnoc(domainSuffix, so, Suffix, info);
        match rules[i].kind {
          case Exact =>
            if rules[i].value !in domainExact {
              domainExact := domainExact[rules[i].value := info];
            }
          case Suffix =>
            if rules[i].value !in domainSuffix {
              domainSuffix := domainSuffix[rules[i].value := info];
            }
          case Keyword => keywords := keywords + [info];
          case OtherKind =>
        }
      }
      assert rules[..|rules|] == rules;
    }

    /**
      Match, for a query and its normalised domain. Unless what was parsed for
      earlier queries answers, the answer is the eager one, as it is on a fresh
      index; otherwise it is that of the merged lists. Either way there is an
      answer exactly when there is an eager one.
    */
    method Match(query: string, d: string) returns (r: Option<Answer>)
      requires Valid()
      modifies this
      ensures Valid() && parsed + pending == old(parsed + pending)
      ensures Scan(old(parsed), d).None? ==> r == EagerMatch(old(parsed + pending), query, d)
      ensures Scan(old(parsed), d).Some? ==> r == Lookup(AllEntries(old(parsed)), AllSets(old(parsed)), d)
      ensures old(parsed) == [] ==> r == EagerMatch(old(pending), query, d)
      ensures r.Some? <==> EagerMatch(old(parsed + pending), query, d).Some?
    {
      hide Lookup, EntriesOf, SetsOf, AllEntries, AllSets, Scan, FirstKeyword, Indexed;
      ghost var all := parsed + pending;
      assert parsed == [] ==> all == pending;
      NothingScanned(d);
      r := LookupParsed(d);
      ScanIsMerged(parsed, d);
      if r.Some? {
        ScanPrefix(parsed, pending, d);
        return;
      }
      var more := true;
      while more
        invariant Valid() && parsed + pending == all
        invariant Scan(parsed, d).None? && (!more ==> pending == [])
        decreases |pending|, more
      {
        ghost var before := parsed;
        more := ParseNext();
        if more {
          r := LookupParsed(d);
          AnswersLast(before, parsed, d);
          if r.Some? {
            ScanPrefix(parsed, pending, d);
            return;
          }
        }
      }
      assert parsed == all;
      r := ScanKeywords(query);
    }

    method ScanKeywords(query: string) returns (r: Option<Answer>)
      requires Valid()
      ensures r == FirstKeyword(AllEntries(parsed), query)
    {
      hide Contains, AllEntries, Indexed;
      KeywordsOnly(AllEntries(parsed), query);
      for i := 0 to |keywords|
        invariant FirstKeyword(keywords[..i], query).None?
      {
        assert keywords[..i + 1][..i] == keywords[..i];
        KeywordsAreKeywords(AllEntries(parsed), i);
        if Contains(query, keywords[i].rule.value) {
          KeywordStays(keywords, i + 1, query);
          return Some(keywords[i]);
        }
      }
      assert keywords[..|keywords|] == keywords;
      return None;
    }
  }

  lemma {:induction false} NothingFolded(p: Provider, rules: seq<Rule>, was: seq<Answer>)
    ensures was + EntriesFrom(p, rules[..0]) == was
  {
  }

  /** One more rule is one more entry, and one more keyword if it is one. */
  lemma {:induction false} FoldStep(p: Provider, rules: seq<Rule>, was: seq<Answer>, i: nat)
    requires i < |rules|
    ensures var so, e := was + EntriesFrom(p, rules[..i]), Answer(p.name, p.section, rules[i]);
      && was + EntriesFrom(p, rules[..i + 1]) == so + [e]
      && Keywords(so + [e]) == Keywords(so) + if rules[i].kind.Keyword? then [e] else []
  {
    assert rules[..i + 1][..i] == rules[..i];
    var so, e := was + EntriesFrom(p, rules[..i]), Answer(p.name, p.section, rules[i]);
    assert (so + [e])[..|so|] == so;
  }

  lemma {:induction false} OneMore(ps: seq<Provider>, p: Provider)
    ensures AllEntries(ps + [p]) == AllEntries(ps) + EntriesOf(p) && AllSets(ps + [p]) == AllSets(ps) + SetsOf(p)
  {
    assert (ps + [p])[..|ps|] == ps;
  }

  lemma {:induction false} KeywordsAreKeywords(entries: seq<Answer>, i: nat)
    requires i < |Keywords(entries)|
    ensures Keywords(entries)[i].rule.kind.Keyword?
  {
    if i < |Keywords(entries[..|entries| - 1])| {
      KeywordsAreKeywords(entries[..|entries| - 1], i);
    }
  }

  lemma {:induction false} KeywordStays(entries: seq<Answer>, i: nat, query: string)
    requires i <= |entries| && FirstKeyword(entries[..i], query).Some?
    ensures FirstKeyword(entries, query) == FirstKeyword(entries[..i], query)
    decreases |entries|
  {
    hide Contains;
    if i == |entries| {
      assert entries[..i] == entries;
    } else {
      assert entries[..|entries| - 1][..i] == entries[..i];
      KeywordStays(entries[..|entries| - 1], i, query);
    }
  }

  lemma {:induction false} SetStays(sets: seq<SetEntry>, i: nat, d: string)
    requires i <= |sets| && FirstSet(sets[..i], d).Some?
    ensures FirstSet(sets, d) == FirstSet(sets[..i], d)
    decreases |sets|
  {
    if i == |sets| {
      assert sets[..i] == sets;
    } else {
      assert sets[..|sets| - 1][..i] == sets[..i];
      SetStays(sets[..|sets| - 1], i, d);
    }
  }

  lemma {:induction false} FoundSuffix(entries: seq<Answer>, tails: seq<string>, i: nat)
    requires i < |tails| && FirstSuffix(entries, tails[..i]).None? && First(entries, Suffix, tails[i]).Some?
    ensures FirstSuffix(entries, tails) == First(entries, Suffix, tails[i])
    decreases |tails|
  {
    hide First;
    if i == |tails| - 1 {
      assert tails[..|tails| - 1] == tails[..i];
    } else {
      assert tails[..|tails| - 1][..i] == tails[..i];
      FoundSuffix(entries, tails[..|tails| - 1], i);
    }
  }

  /** The next tail settles the search, or the tails up to it find nothing. */
  lemma {:induction false} NextSuffix(entries: seq<Answer>, tails: seq<string>, i: nat)
    requires i < |tails| && (i == 0 || FirstSuffix(entries, tails[..i]).None?)
    ensures var e := First(entries, Suffix, tails[i]);
            if e.Some? then FirstSuffix(entries, tails) == e else FirstSuffix(entries, tails[..i + 1]).None?
  {
    hide First;
    assert tails[..i + 1][..i] == tails[..i];
    if First(entries, Suffix, tails[i]).Some? { FoundSuffix(entries, tails, i); }
  }

  /** strings.IndexByte. */
  function IndexByte(s: string, c: char): (r: Option<nat>)
    ensures r.Some? ==> r.value < |s| && s[r.value] == c
    ensures forall k :: 0 <= k < (if r.Some? then r.value else |s|) ==> s[k] != c
  {
    if s == "" then None
    else if s[0] == c then Some(0)
    else match IndexByte(s[1..], c)
      case None => None
      case Some(i) => Some(i + 1)
  }

  /** Going on from the next dot. */
  lemma {:induction false} AfterDot(d: string)
    ensures var dot := IndexByte(d, '.');
            After(d) ==
            if dot.None? || d[dot.value + 1..] == "" then []
            else [d[dot.value + 1..]] + After(d[dot.value + 1..])
  {
    if d != "" && d[0] != '.' {
      AfterDot(d[1..]);
      var dot := IndexByte(d[1..], '.');
      if dot.Some? { assert d[1..][dot.value + 1..] == d[dot.value + 2..]; }
    }
  }

  lemma {:induction false} NothingScanned(d: string)
    ensures Scan([], d).None?
  {
  }

  /** An answer among the first providers is the answer among all. */
  lemma {:induction false} ScanPrefix(a: seq<Provider>, b: seq<Provider>, d: string)
    requires Scan(a, d).Some?
    ensures Scan(a + b, d) == Scan(a, d)
  {
    hide ProviderAnswer;
    if b == [] {
      assert a + b == a;
    } else {
      assert (a + b)[..|a + b| - 1] == a + b[..|b| - 1];
      ScanPrefix(a, b[..|b| - 1], d);
    }
  }

  /** When the earlier providers do not answer, the merged lists answer as the last provider does. */
  lemma {:induction false} AnswersLast(before: seq<Provider>, now: seq<Provider>, d: string)
    requires Scan(before, d).None? && now != [] && now[..|now| - 1] == before
    ensures Lookup(AllEntries(now), AllSets(now), d) == Scan(now, d)
  {
    hide Lookup, EntriesOf, SetsOf;
    ScanIsMerged(before, d);
    LookupConcat(AllEntries(before), AllSets(before), EntriesOf(now[|now| - 1]), SetsOf(now[|now| - 1]), d);
  }

  // ----- what a provider's own answer is -----

  /** v is d, or what follows one of its dots. */
  predicate DotSuffix(v: string, d: string) {
    v == d || (v != "" && |v| < |d| && d[|d| - |v|..] == v && d[|d| - |v| - 1] == '.')
  }

  lemma {:induction false} AfterAreDotSuffixes(d: string, v: string)
    ensures v in After(d) <==> v != d && DotSuffix(v, d)
  {
    if d != "" {
      AfterAreDotSuffixes(d[1..], v);
      if v != "" && |v| < |d| {
        assert d[|d| - |v|..] == d[1..][|d| - |v| - 1..];
        if |v| == |d| - 1 {
          assert d[|d| - |v|..] == d[1..];
        } else {
          assert d[|d| - |v| - 1] == d[1..][|d| - |v| - 2];
        }
      }
    }
  }

  /** The values tried are exactly the dot-boundary suffixes, and none twice or out of order. */
  lemma {:induction false} TailsAreDotSuffixes(d: string, v: string)
    ensures v in Tails(d) <==> DotSuffix(v, d)
  {
    AfterAreDotSuffixes(d, v);
  }

  lemma {:induction false} AfterShorter(d: string)
    ensures forall i :: 0 <= i < |After(d)| ==> |After(d)[i]| < |d|
    ensures forall i, j :: 0 <= i < j < |After(d)| ==> |After(d)[i]| > |After(d)[j]|
  {
    if d != "" {
      AfterShorter(d[1..]);
      if d[0] == '.' && d[1..] != "" {
        var rest := After(d[1..]);
        assert After(d) == [d[1..]] + rest;
      }
    }
  }

  lemma {:induction false} FirstFound(entries: seq<Answer>, kind: Kind, value: string)
    ensures var r := First(entries, kind, value);
            && (r.Some? ==> r.value in entries && r.value.rule == Rule(kind, value))
            && (r.None? ==> forall e :: e in entries ==> e.rule != Rule(kind, value))
  {
    if entries != [] {
      FirstFound(entries[..|entries| - 1], kind, value);
      assert entries == entries[..|entries| - 1] + [entries[|entries| - 1]];
    }
  }

  /** Entry e is for the i-th tail, and nothing is for an earlier one. */
  ghost predicate LongestAt(entries: seq<Answer>, tails: seq<string>, i: nat, e: Answer) {
    && i < |tails| && e in entries && e.rule == Rule(Suffix, tails[i])
    && forall x, k :: x in entries && 0 <= k < i ==> x.rule != Rule(Suffix, tails[k])
  }

  lemma {:induction false} SuffixFound(entries: seq<Answer>, tails: seq<string>) returns (i: nat)
    ensures FirstSuffix(entries, tails).Some? ==> LongestAt(entries, tails, i, FirstSuffix(entries, tails).value)
    ensures FirstSuffix(entries, tails).None? ==>
              forall e, k :: e in entries && 0 <= k < |tails| ==> e.rule != Rule(Suffix, tails[k])
  {
    hide First;
    i := 0;
    if tails != [] {
      var front, last := tails[..|tails| - 1], tails[|tails| - 1];
      i := SuffixFound(entries, front);
      FirstFound(entries, Suffix, last);
      assert forall k :: 0 <= k < |front| ==> tails[k] == front[k];
      if FirstSuffix(entries, front).None? {
        i := |front|;
      }
    }
  }

  predicate IsExact(e: Answer, d: string) { e.rule == Rule(Exact, d) }

  predicate IsSuffix(e: Answer, d: string) { e.rule.kind.Suffix? && DotSuffix(e.rule.value, d) }

  lemma {:induction false} TailOrder(d: string, i: nat, k: nat)
    requires i < |Tails(d)| && k < |Tails(d)|
    ensures i < k <==> |Tails(d)[k]| < |Tails(d)[i]|
  {
    hide After;
    AfterShorter(d);
    var rest := After(d);
    assert forall j :: 0 < j < |Tails(d)| ==> Tails(d)[j] == rest[j - 1];
  }

  /**
    Text lists answer with an exact entry if they have one, else with their
    longest dot-boundary suffix, else not at all.
  */
  lemma {:induction false} ListsPickBest(es: seq<Answer>, d: string)
    ensures var r := Lookup(es, [], d);
            && (r.Some? <==> exists e :: e in es && (IsExact(e, d) || IsSuffix(e, d)))
            && (r.Some? ==> r.value in es && (IsExact(r.value, d) || IsSuffix(r.value, d)))
            && (r.Some? && (exists e :: e in es && IsExact(e, d)) ==> IsExact(r.value, d))
            && (r.Some? && !IsExact(r.value, d) ==>
                  forall e :: e in es && IsSuffix(e, d) ==> |e.rule.value| <= |r.value.rule.value|)
  {
    hide First, FirstSuffix, Tails, DotSuffix;
    var tails := Tails(d);
    FirstFound(es, Exact, d);
    var i := SuffixFound(es, tails);
    forall v ensures v in tails <==> DotSuffix(v, d) { TailsAreDotSuffixes(d, v); }
    var s := FirstSuffix(es, tails);
    if First(es, Exact, d).None? && s.Some? {
      forall e | e in es && IsSuffix(e, d) ensures |e.rule.value| <= |tails[i]| {
        var k :| 0 <= k < |tails| && tails[k] == e.rule.value;
        TailOrder(d, k, i);
      }
    }
    if s.None? {
      forall e | e in es ensures !IsSuffix(e, d) {
        assert e.rule.kind.Suffix? ==> e.rule.value !in tails;
      }
    }
  }

  /** So does a provider with a text list. */
  lemma {:induction false} ProviderPicksBest(p: Provider, d: string)
    requires p.content.TextRules?
    ensures var r, es := ProviderAnswer(p, d), EntriesOf(p);
            && (r.Some? <==> exists e :: e in es && (IsExact(e, d) || IsSuffix(e, d)))
            && (r.Some? ==> r.value in es && (IsExact(r.value, d) || IsSuffix(r.value, d)))
            && (r.Some? && (exists e :: e in es && IsExact(e, d)) ==> IsExact(r.value, d))
            && (r.Some? && !IsExact(r.value, d) ==>
                  forall e :: e in es && IsSuffix(e, d) ==> |e.rule.value| <= |r.value.rule.value|)
  {
    hide Lookup, EntriesOf, IsExact, IsSuffix;
    ListsPickBest(EntriesOf(p), d);
  }

  /** The scan takes the first provider in order that has an answer, and its answer. */
  lemma {:induction false} ScanTakesFirst(ps: seq<Provider>, d: string)
    ensures Scan(ps, d).Some? ==>
              exists i :: 0 <= i < |ps| && Scan(ps, d) == ProviderAnswer(ps[i], d)
                          && forall k :: 0 <= k < i ==> ProviderAnswer(ps[k], d).None?
    ensures Scan(ps, d).None? ==> forall k :: 0 <= k < |ps| ==> ProviderAnswer(ps[k], d).None?
  {
    hide ProviderAnswer;
    if ps != [] {
      var front := ps[..|ps| - 1];
      ScanTakesFirst(front, d);
      assert forall k :: 0 <= k < |front| ==> front[k] == ps[k];
    }
  }

  // ----- when a used index departs from the eager answer -----

  /** In merged lists the entry e goes before the answer r; bySet says that r came from a binary set. */
  predicate Outranks(e: Answer, r: Answer, bySet: bool, d: string) {
    && r.rule.kind.Suffix?
    && (IsExact(e, d) || (IsSuffix(e, d) && (bySet || |e.rule.value| > |r.rule.value|)))
  }

  ghost predicate Outranked(later: seq<Answer>, r: Answer, bySet: bool, d: string) {
    exists e :: e in later && Outranks(e, r, bySet, d)
  }

  /** No list behind goes before the answer, or the one that does repeats it word for word. */
  ghost predicate Unbeaten(later: seq<Answer>, r: Answer, bySet: bool, d: string) {
    !Outranked(later, r, bySet, d) || Lookup(later, [], d) == Some(r)
  }

  ghost predicate Shrinking(tails: seq<string>) {
    forall i, k :: 0 <= i < k < |tails| ==> |tails[k]| < |tails[i]|
  }

  /** The longer suffix wins, and the earlier list where they are equally long. */
  lemma {:induction false} SuffixMerge(a: seq<Answer>, b: seq<Answer>, tails: seq<string>)
    requires Shrinking(tails)
    ensures var x, y, both := FirstSuffix(a, tails), FirstSuffix(b, tails), FirstSuffix(a + b, tails);
            both == if x.None? || (y.Some? && |y.value.rule.value| > |x.value.rule.value|) then y else x
  {
    hide First;
    if tails != [] {
      var front, last := tails[..|tails| - 1], tails[|tails| - 1];
      SuffixMerge(a, b, front);
      FirstConcat(a, b, Suffix, last);
      FirstFound(a, Suffix, last);
      FirstFound(b, Suffix, last);
      LongerThan(a, front, |last|);
      LongerThan(b, front, |last|);
    }
  }

  lemma {:induction false} LongerThan(entries: seq<Answer>, tails: seq<string>, n: nat)
    requires forall i :: 0 <= i < |tails| ==> |tails[i]| > n
    ensures FirstSuffix(entries, tails).Some? ==> |FirstSuffix(entries, tails).value.rule.value| > n
  {
    var i := SuffixFound(entries, tails);
  }

  /** Lists behind an answer leave it as it is exactly when it is unbeaten. */
  lemma {:induction false} StaysExactly(es: seq<Answer>, st: seq<SetEntry>, later: seq<Answer>, more: seq<SetEntry>,
      d: string)
    requires Lookup(es, st, d).Some? && (es == [] || st == [])
    ensures Lookup(es + later, st + more, d) == Lookup(es, st, d)
            <==> Unbeaten(later, Lookup(es, st, d).value, es == [], d)
  {
    hide First, FirstSuffix, Tails, FirstSet, DotSuffix;
    var r, tails := Lookup(es, st, d).value, Tails(d);
    FirstConcat(es, later, Exact, d);
    SetConcat(st, more, d);
    forall i, k | 0 <= i < k < |tails| ensures |tails[k]| < |tails[i]| { TailOrder(d, i, k); }
    SuffixMerge(es, later, tails);
    FirstFound(es, Exact, d);
    ListsPickBest(later, d);
    FirstFound(later, Exact, d);
    var i := SuffixFound(es, tails);
    var j := SuffixFound(later, tails);
    SetsGiveSuffixes(st, d);
    NoAnswer(d);
    NoSets(d);
  }

  lemma {:induction false} NoSets(d: string)
    ensures FirstSet([], d).None?
  {
  }

  lemma {:induction false} ListsConcat(a: seq<Provider>, b: seq<Provider>)
    ensures AllEntries(a + b) == AllEntries(a) + AllEntries(b) && AllSets(a + b) == AllSets(a) + AllSets(b)
  {
    hide EntriesOf, SetsOf;
    if b == [] {
      assert a + b == a;
    } else {
      hide AllEntries, AllSets;
      var front, last := b[..|b| - 1], [b[|b| - 1]];
      assert front + last == b;
      Regroup(a, front, last);
      ListsConcat(a, front);
      OneMore(a + front, b[|b| - 1]);
      OneMore(front, b[|b| - 1]);
      Regroup(AllEntries(a), AllEntries(front), EntriesOf(b[|b| - 1]));
      Regroup(AllSets(a), AllSets(front), SetsOf(b[|b| - 1]));
    }
  }

  lemma {:induction false} Regroup<T>(a: seq<T>, b: seq<T>, c: seq<T>)
    ensures a + (b + c) == (a + b) + c
  {
  }

  lemma {:induction false} OneProvider(p: Provider, ps: seq<Provider>)
    ensures AllEntries([p] + ps) == EntriesOf(p) + AllEntries(ps) && AllSets([p] + ps) == SetsOf(p) + AllSets(ps)
  {
    hide EntriesOf, SetsOf;
    ListsConcat([p], ps);
    assert [p][..0] == [];
  }

  lemma {:induction false} NoneScanned(ps: seq<Provider>, d: string)
    requires forall k :: 0 <= k < |ps| ==> ProviderAnswer(ps[k], d).None?
    ensures Scan(ps, d).None?
  {
    hide ProviderAnswer;
    if ps != [] { NoneScanned(ps[..|ps| - 1], d); }
  }

  /** The i-th provider is the first that answers. */
  ghost predicate Answers(ps: seq<Provider>, i: nat, d: string) {
    i < |ps| && ProviderAnswer(ps[i], d).Some? && forall k :: 0 <= k < i ==> ProviderAnswer(ps[k], d).None?
  }

  lemma {:induction false} ScanAnswers(ps: seq<Provider>, i: nat, d: string)
    requires Answers(ps, i, d)
    ensures Scan(ps[..i], d).None? && Scan(ps, d) == ProviderAnswer(ps[i], d)
  {
    hide ProviderAnswer;
    NoneScanned(ps[..i], d);
    assert ps[..i + 1][..i] == ps[..i];
    ScanPrefix(ps[..i + 1], ps[i + 1..], d);
    assert ps == ps[..i + 1] + ps[i + 1..];
  }

  lemma {:induction false} LaterNames(ps: seq<Provider>, name: string)
    requires forall k :: 0 <= k < |ps| ==> ps[k].name != name
    ensures forall e :: e in AllEntries(ps) ==> e.provider != name
  {
    if ps != [] {
      LaterNames(ps[..|ps| - 1], name);
      EntriesNamed(ps[|ps| - 1]);
    }
  }

  lemma {:induction false} EntriesNamed(p: Provider)
    ensures forall e :: e in EntriesOf(p) ==> e.provider == p.name
  {
    if p.content.TextRules? { RulesNamed(p, p.content.rules); }
  }

  lemma {:induction false} RulesNamed(p: Provider, rules: seq<Rule>)
    ensures forall e :: e in EntriesFrom(p, rules) ==> e.provider == p.name
  {
    if rules != [] { RulesNamed(p, rules[..|rules| - 1]); }
  }

  /** A provider's answer carries its name. */
  lemma {:induction false} AnswerNamed(p: Provider, d: string)
    ensures ProviderAnswer(p, d).Some? ==> ProviderAnswer(p, d).value.provider == p.name
  {
    hide First, FirstSuffix, Tails;
    EntriesNamed(p);
    FirstFound(EntriesOf(p), Exact, d);
    var i := SuffixFound(EntriesOf(p), Tails(d));
    if p.content.DomainSet? {
      var sets := SetsOf(p);
      assert sets[..0] == [] && FirstSet(sets[..0], d).None?;
      assert FirstSet(sets, d).Some? ==> FirstSet(sets, d).value.provider == sets[0].provider;
    }
  }

  /**
    What was parsed answers as the eager scan does exactly when no list behind
    the first answering provider outranks its answer; where later providers
    bear other names, exactly when none of their entries does.
  */
  lemma {:induction false} DepartsExactly(ps: seq<Provider>, i: nat, d: string)
    requires Answers(ps, i, d)
    ensures Scan(ps, d) == ProviderAnswer(ps[i], d)
    ensures var r, bySet := ProviderAnswer(ps[i], d).value, ps[i].content.DomainSet?;
            && (Lookup(AllEntries(ps), AllSets(ps), d) == Scan(ps, d)
                <==> Unbeaten(AllEntries(ps[i + 1..]), r, bySet, d))
            && ((forall k :: i < k < |ps| ==> ps[k].name != ps[i].name) ==>
                  (Lookup(AllEntries(ps), AllSets(ps), d) == Scan(ps, d)
                   <==> !Outranked(AllEntries(ps[i + 1..]), r, bySet, d)))
  {
    hide Lookup, AllEntries, AllSets, Scan, Outranked, First, FirstSuffix, Tails;
    var before, p, later := ps[..i], ps[i], ps[i + 1..];
    var r := ProviderAnswer(p, d).value;
    ScanAnswers(ps, i, d);
    assert ps == before + ([p] + later);
    ListsConcat(before, [p] + later);
    OneProvider(p, later);
    ScanIsMerged(before, d);
    LookupConcat(AllEntries(before), AllSets(before), AllEntries([p] + later), AllSets([p] + later), d);
    AnswerHasSource(p, d);
    StaysExactly(EntriesOf(p), SetsOf(p), AllEntries(later), AllSets(later), d);
    if forall k :: i < k < |ps| ==> ps[k].name != p.name {
      forall k | 0 <= k < |later| ensures later[k].name != p.name { assert later[k] == ps[i + 1 + k]; }
      LaterNames(later, p.name);
      AnswerNamed(p, d);
      ListsPickBest(AllEntries(later), d);
    }
  }

  lemma {:induction false} AnswerHasSource(p: Provider, d: string)
    requires ProviderAnswer(p, d).Some?
    ensures (EntriesOf(p) == [] || SetsOf(p) == []) && (EntriesOf(p) == [] <==> p.content.DomainSet?)
  {
    hide First, FirstSuffix, Tails;
    if EntriesOf(p) == [] && SetsOf(p) == [] { NoAnswer(d); }
  }

  /**
    On a used index the answer itself can differ: an earlier provider that only
    has a suffix answers a fresh index, and once a later provider with an exact
    entry is parsed, that entry answers instead.
  */
  lemma {:induction false} HistoryMatters(a: Provider, b: Provider, d: string)
    requires ProviderAnswer(a, d).Some? && First(EntriesOf(a), Exact, d).None? && First(EntriesOf(b), Exact, d).Some?
    ensures Scan([a, b], d) == ProviderAnswer(a, d)
    ensures Lookup(AllEntries([a, b]), AllSets([a, b]), d) == First(EntriesOf(b), Exact, d)
    ensures ProviderAnswer(a, d) != First(EntriesOf(b), Exact, d)
  {
    hide First, FirstSuffix, Tails, EntriesOf, SetsOf;
    assert [a, b][..1] == [a] && [a][..0] == [];
    assert Scan([a], d) == ProviderAnswer(a, d) by { NothingScanned(d); }
    assert AllEntries([a]) == EntriesOf(a);
    FirstConcat(EntriesOf(a), EntriesOf(b), Exact, d);
    assert AllEntries([a, b]) == EntriesOf(a) + EntriesOf(b);
    FirstFound(EntriesOf(b), Exact, d);
    var i := SuffixFound(EntriesOf(a), Tails(d));
    SetsGiveSuffixes(SetsOf(a), d);
  }

  lemma {:induction false} SetsGiveSuffixes(sets: seq<SetEntry>, d: string)
    ensures FirstSet(sets, d).Some? ==> FirstSet(sets, d).value.rule.kind.Suffix?
  {
    if sets != [] { SetsGiveSuffixes(sets[..|sets| - 1], d); }
  }

  // ----- whose answers they can be -----

  /** An enabled provider with a file has that name and section. */
  ghost predicate FromUsable(ps: seq<Provider>, a: Answer) {
    exists p :: p in ps && p.enabled && p.path != "" && a.provider == p.name && a.section == p.section
  }

  ghost predicate AllUsable(ps: seq<Provider>, some: seq<Provider>) {
    forall p :: p in some ==> p in ps && p.enabled && p.path != ""
  }

  lemma {:induction false} InsertMembers(ps: seq<Provider>, p: Provider)
    ensures forall q :: q in Insert(ps, p) <==> q in ps || q == p
  {
    hide NameLe;
    if ps != [] && !NameLe(ps[|ps| - 1].name, p.name) {
      InsertMembers(ps[..|ps| - 1], p);
      assert ps == ps[..|ps| - 1] + [ps[|ps| - 1]];
    }
  }

  /** The index is made of exactly the enabled providers with a file. */
  lemma {:induction false} IndexedProviders(ps: seq<Provider>)
    ensures forall p :: p in Usable(ps) <==> p in ps && p.enabled && p.path != ""
    ensures forall p :: p in ByName(ps) <==> p in ps
  {
    if ps != [] {
      IndexedProviders(ps[..|ps| - 1]);
      InsertMembers(ByName(ps[..|ps| - 1]), ps[|ps| - 1]);
      assert ps == ps[..|ps| - 1] + [ps[|ps| - 1]];
    }
  }

  lemma {:induction false} RulesFrom(p: Provider, rules: seq<Rule>)
    ensures forall e :: e in EntriesFrom(p, rules) ==> e.provider == p.name && e.section == p.section
  {
    if rules != [] { RulesFrom(p, rules[..|rules| - 1]); }
  }

  lemma {:induction false} EntriesUsable(ps: seq<Provider>, some: seq<Provider>)
    requires AllUsable(ps, some)
    ensures forall e :: e in AllEntries(some) ==> FromUsable(ps, e)
    ensures forall s :: s in AllSets(some) ==>
              exists p :: p in ps && p.enabled && p.path != "" && s.provider == p.name && s.section == p.section
  {
    if some != [] {
      var last := some[|some| - 1];
      EntriesUsable(ps, some[..|some| - 1]);
      if last.content.TextRules? { RulesFrom(last, last.content.rules); }
    }
  }

  lemma {:induction false} SetFound(sets: seq<SetEntry>, d: string)
    ensures FirstSet(sets, d).Some? ==>
              exists s :: s in sets && FirstSet(sets, d).value.provider == s.provider
                          && FirstSet(sets, d).value.section == s.section
  {
    if sets != [] {
      SetFound(sets[..|sets| - 1], d);
      assert sets == sets[..|sets| - 1] + [sets[|sets| - 1]];
    }
  }

  lemma {:induction false} KeywordFound(entries: seq<Answer>, query: string)
    ensures FirstKeyword(entries, query).Some? ==> FirstKeyword(entries, query).value in entries
  {
    hide Contains;
    if entries != [] {
      KeywordFound(entries[..|entries| - 1], query);
      assert entries == entries[..|entries| - 1] + [entries[|entries| - 1]];
    }
  }

  lemma {:induction false} LookupUsable(ps: seq<Provider>, some: seq<Provider>, d: string)
    requires AllUsable(ps, some)
    ensures Lookup(AllEntries(some), AllSets(some), d).Some? ==>
              FromUsable(ps, Lookup(AllEntries(some), AllSets(some), d).value)
  {
    hide First, FirstSuffix, FirstSet, Tails, AllEntries, AllSets, AllUsable;
    EntriesUsable(ps, some);
    FirstFound(AllEntries(some), Exact, d);
    var i := SuffixFound(AllEntries(some), Tails(d));
    SetFound(AllSets(some), d);
  }

  lemma {:induction false} ScanUsable(ps: seq<Provider>, some: seq<Provider>, d: string)
    requires AllUsable(ps, some)
    ensures Scan(some, d).Some? ==> FromUsable(ps, Scan(some, d).value)
  {
    hide ProviderAnswer, FromUsable;
    if some != [] {
      var last := some[|some| - 1];
      ScanUsable(ps, some[..|some| - 1], d);
      assert AllUsable(ps, [last]);
      LookupUsable(ps, [last], d);
      AloneIsOwn(last, d);
    }
  }

  lemma {:induction false} AloneIsOwn(p: Provider, d: string)
    ensures Lookup(AllEntries([p]), AllSets([p]), d) == ProviderAnswer(p, d)
  {
    hide Lookup;
    assert [p][..0] == [];
    assert AllEntries([p]) == EntriesOf(p) && AllSets([p]) == SetsOf(p);
  }

  /** No answer, eager or of a used index, ever names a provider that is disabled or has no file. */
  lemma {:induction false} AnswersAreUsable(ps: seq<Provider>, parsed: seq<Provider>, pending: seq<Provider>,
      query: string, d: string)
    requires parsed + pending == ByName(Usable(ps))
    ensures var eager := EagerMatch(parsed + pending, query, d); eager.Some? ==> FromUsable(ps, eager.value)
    ensures var used := Lookup(AllEntries(parsed), AllSets(parsed), d); used.Some? ==> FromUsable(ps, used.value)
  {
    hide Lookup, Scan, FromUsable, AllEntries, AllSets, FirstKeyword, ByName, Usable;
    IndexedProviders(ps);
    IndexedProviders(Usable(ps));
    var all := parsed + pending;
    assert AllUsable(ps, all) && AllUsable(ps, parsed) by {
      assert forall p :: p in parsed ==> p in all;
    }
    ScanUsable(ps, all, d);
    LookupUsable(ps, parsed, d);
    EntriesUsable(ps, all);
    KeywordFound(AllEntries(all), query);
  }

  // ----- keywords -----

  predicate StandsAt(part: string, query: string, i: nat) {
    i + |part| <= |query| && part == query[i..i + |part|]
  }

  /** The keyword occurs in the query. */
  ghost predicate Occurs(e: Answer, query: string) {
    e.rule.kind.Keyword? && exists i: nat :: StandsAt(e.rule.value, query, i)
  }

  /** Among the keywords the first that occurs in the query answers. */
  lemma {:induction false} KeywordMeans(entries: seq<Answer>, query: string)
    ensures match FirstKeyword(entries, query)
            case Some(a) => exists i :: 0 <= i < |entries| && entries[i] == a && Occurs(a, query)
                                        && forall k :: 0 <= k < i ==> !Occurs(entries[k], query)
            case None => forall i :: 0 <= i < |entries| ==> !Occurs(entries[i], query)
  {
    hide Occurs, Contains;
    if entries != [] {
      var front, last := entries[..|entries| - 1], entries[|entries| - 1];
      KeywordMeans(front, query);
      ContainsMeans(last, query);
      assert forall k :: 0 <= k < |front| ==> front[k] == entries[k];
      if FirstKeyword(front, query).Some? {
        var i :| 0 <= i < |front| && front[i] == FirstKeyword(front, query).value && Occurs(front[i], query)
                 && forall k :: 0 <= k < i ==> !Occurs(front[k], query);
        assert entries[i] == front[i];
      }
    }
  }

  lemma {:induction false} ContainsMeans(e: Answer, query: string)
    ensures e.rule.kind.Keyword? && Contains(query, e.rule.value) <==> Occurs(e, query)
  {
    if Contains(query, e.rule.value) {
      var i: nat :| i <= |query| && PartAt(query, e.rule.value, i);
      assert StandsAt(e.rule.value, query, i);
    }
    if Occurs(e, query) {
      var i: nat :| StandsAt(e.rule.value, query, i);
      assert PartAt(query, e.rule.value, i);
    }
  }
}
