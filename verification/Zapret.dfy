/**
  Zapret sections: which (protocol, port) pairs a section claims away from the
  proxy, and which queue rules its strategies get after routing. A claim is the
  comma-joined union of port tokens that the generator writes into its rule.
*/
module Zapret {
  import opened Lists
  import opened Text
  import opened Ports
  import opened Config

  function LowerChar(c: char): char {
    if 'A' <= c <= 'Z' then (c as int + 32) as char else c
  }

  function Lower(s: string): string {
    if s == [] then [] else [LowerChar(s[0])] + Lower(s[1..])
  }

  /** protocolEnabled: listed, whatever the case or the spacing. */
  predicate ProtocolEnabled(zs: ZapretStrategy, proto: Protocol) {
    exists i :: 0 <= i < |zs.protocols| && ProtocolOf(Lower(TrimSpace(zs.protocols[i]))) == proto
  }

  /** One protocol of sectionZapretStrategy: the narrowed list, if any of it is left. */
  function Narrow(s: Section, zs: ZapretStrategy, proto: Protocol): (r: Option<string>)
    ensures r.Some? ==> Valid(r.value)
  {
    if ProtocolEnabled(zs, proto) && s.MatchesProtocol(proto) then
      var (ports, ok) := Intersection(zs.PortsFor(proto), s.destinationPorts);
      IntersectionValid(zs.PortsFor(proto), s.destinationPorts);
      if ok then Some(ports) else None
    else None
  }

  lemma {:induction false} IntersectionValid(a: string, b: string)
    ensures Intersection(a, b).1 ==> Valid(a) && Valid(b) && Valid(Intersection(a, b).0)
  {
    if Valid(a) && Valid(b) {
      IntersectionMeets(a, b);
    }
  }

  /** sectionZapretStrategy: the strategy cut down to what the section lets through. */
  function SectionStrategy(s: Section, zs: ZapretStrategy): ZapretStrategy {
    var tcp, udp := Narrow(s, zs, Tcp), Narrow(s, zs, Udp);
    zs.(tcpPorts := if tcp.Some? then tcp.value else zs.tcpPorts,
        udpPorts := if udp.Some? then udp.value else zs.udpPorts,
        protocols := (if tcp.Some? then ["tcp"] else []) + (if udp.Some? then ["udp"] else []))
  }

  /** Spelled exactly. */
  predicate PlainlySpelled(zs: ZapretStrategy) {
    forall i :: 0 <= i < |zs.protocols| ==> zs.protocols[i] == "tcp" || zs.protocols[i] == "udp"
  }

  lemma {:induction false} PlainlyEnabled(zs: ZapretStrategy)
    requires PlainlySpelled(zs)
    ensures ProtocolEnabled(zs, Tcp) <==> "tcp" in zs.protocols
    ensures ProtocolEnabled(zs, Udp) <==> "udp" in zs.protocols
  {
    PlainProtocols();
  }

  lemma {:induction false} SectionStrategyProtocols(s: Section, zs: ZapretStrategy, proto: Protocol)
    requires proto.Tcp? || proto.Udp?
    ensures ProtocolEnabled(SectionStrategy(s, zs), proto) <==> Narrow(s, zs, proto).Some?
    ensures Narrow(s, zs, proto).Some? ==> SectionStrategy(s, zs).PortsFor(proto) == Narrow(s, zs, proto).value
  {
    hide Intersection, TrimSpace, Lower;
    PlainlyEnabled(SectionStrategy(s, zs));
    PlainProtocols();
  }

  lemma {:induction false} PlainProtocols()
    ensures ProtocolOf(Lower(TrimSpace("tcp"))) == Tcp && ProtocolOf(Lower(TrimSpace("udp"))) == Udp
    ensures ProtocolOf("tcp") == Tcp && ProtocolOf("udp") == Udp
  {
    assert "udp"[0] != "tcp"[0];
    TrimTight("tcp");
    TrimTight("udp");
    assert Lower("tcp"[1..]) == "cp" by { assert "tcp"[1..] == "cp"; assert "cp"[1..] == "p"; assert "p"[1..] == ""; }
    assert Lower("udp"[1..]) == "dp" by { assert "udp"[1..] == "dp"; assert "dp"[1..] == "p"; assert "p"[1..] == ""; }
  }

  /** What the section and one of its strategies let through. */
  predicate StrategyCovers(c: Config, s: Section, name: string, proto: Protocol, port: int) {
    var zs := c.ZapretStrategyByName(name);
    zs.Some? && Narrow(s, zs.value, proto).Some? && Admits(Narrow(s, zs.value, proto).value, port)
  }

  function Covers(c: Config, s: Section, proto: Protocol, port: int): string -> bool {
    name => StrategyCovers(c, s, name, proto, port)
  }

  /** What the section and its strategies let through: the meaning of its claim. */
  predicate Covered(c: Config, s: Section, proto: Protocol, port: int) {
    Any(s.zapretStrategies, Covers(c, s, proto, port))
  }

  // ----- port tokens -----

  predicate GoodToken(t: string) { Tight(t) && ',' !in t && ParseToken(t).Ok? }

  predicate ReadsAs(r: Result<PortRange>, p: int) { r.Ok? && r.value.Has(p) }

  /** The tokens, as read, name port p. */
  predicate ReadsName(rs: seq<Result<PortRange>>, p: int) {
    exists i :: 0 <= i < |rs| && ReadsAs(rs[i], p)
  }

  predicate TokensName(tokens: seq<string>, p: int) { ReadsName(ReadAll(tokens), p) }

  predicate TokenNames(t: string, p: int) { ReadsAs(ParseToken(t), p) }

  lemma {:induction false} TrimShape(s: string)
    ensures TrimSpace(s) == "" || Tight(TrimSpace(s))
    ensures TrimSpace(TrimSpace(s)) == TrimSpace(s)
    ensures forall c :: c in TrimSpace(s) ==> c in s
  {
    LeftKeeps(s);
    if TrimSpace(s) != "" {
      assert TrimSpace(s)[0] == TrimLeft(s)[0];
      TrimTight(TrimSpace(s));
    }
  }

  lemma {:induction false} LeftKeeps(s: string)
    ensures forall c :: c in TrimLeft(s) ==> c in s
  {
    if s != [] && IsSpace(s[0]) { LeftKeeps(s[1..]); }
  }

  /** A piece of a valid list, trimmed: a token that reads the same. */
  lemma {:induction false} TrimmedToken(ports: string, i: nat)
    requires Valid(ports) && !Blank(ports) && i < |Split(ports, ',')|
    ensures var t := Split(ports, ',')[i];
            GoodToken(TrimSpace(t)) && forall p :: TokenNames(TrimSpace(t), p) <==> TokenNames(t, p)
  {
    hide TrimLeft, TrimRight, IsSpace, Split;
    var pieces := Split(ports, ',');
    var t := pieces[i];
    ReadAllAt(pieces, i);
    assert ReadAll(pieces)[i] == Ok(ParseTokens(pieces).value[i]);
    TrimShape(t);
    PiecesAreClean(ports, ',', i);
    BlankReadsBadly();
  }

  lemma {:induction false} BlankReadsBadly()
    ensures forall t :: TrimSpace(t) == "" ==> ParseToken(t).Err?
  {
    assert Split("", '-') == [[]];
    assert TrimSpace("") == "";
  }

  lemma {:induction false} CollectNames(rs: seq<Result<PortRange>>, p: int)
    requires Collect(rs).Ok?
    ensures Has(Collect(rs).value, p) <==> ReadsName(rs, p)
  {
    var out := Collect(rs).value;
    if Has(out, p) {
      var i :| 0 <= i < |out| && out[i].Has(p);
      assert ReadsAs(rs[i], p);
    }
    if ReadsName(rs, p) {
      var i :| 0 <= i < |rs| && ReadsAs(rs[i], p);
      assert out[i].Has(p);
    }
  }

  lemma {:induction false} CollectsWhenRead(rs: seq<Result<PortRange>>)
    requires forall i :: 0 <= i < |rs| ==> rs[i].Ok?
    ensures Collect(rs).Ok?
  {
    if rs != [] { CollectsWhenRead(rs[1..]); }
  }

  /** A valid, non-blank list names what its pieces name. */
  lemma {:induction false} PiecesName(ports: string, p: int)
    requires Valid(ports) && !Blank(ports)
    ensures Admits(ports, p) <==> TokensName(Split(ports, ','), p)
  {
    CollectNames(ReadAll(Split(ports, ',')), p);
  }

  ghost predicate GoodTokens(tokens: seq<string>) {
    forall i :: 0 <= i < |tokens| ==> GoodToken(tokens[i])
  }

  lemma {:induction false} SpacedAt(parts: seq<string>, i: nat)
    requires i < |parts|
    ensures Spaced(parts)[i] == " " + parts[i]
  {
    if i > 0 { SpacedAt(parts[1..], i - 1); }
  }

  /** Joined and split again, tokens read as they did. */
  lemma {:induction false} JoinedReads(tokens: seq<string>)
    requires tokens != [] && GoodTokens(tokens)
    ensures ReadAll(Split(Join(tokens, ", "), ',')) == ReadAll(tokens)
  {
    var pieces := Split(Join(tokens, ", "), ',');
    SplitJoined(tokens);
    forall i | 0 <= i < |tokens| ensures ReadAll(pieces)[i] == ReadAll(tokens)[i] {
      ReadAllAt(pieces, i);
      ReadAllAt(tokens, i);
      if i > 0 {
        SpacedAt(tokens[1..], i - 1);
        SameTrim(tokens[i]);
      }
    }
  }

  lemma {:induction false} SameTrim(t: string)
    requires GoodToken(t)
    ensures ParseToken(" " + t) == ParseToken(t)
  {
    TrimTight(t);
  }

  lemma {:induction false} GoodTokensRead(tokens: seq<string>)
    requires GoodTokens(tokens)
    ensures Collect(ReadAll(tokens)).Ok?
  {
    forall i | 0 <= i < |tokens| ensures ReadAll(tokens)[i].Ok? { ReadAllAt(tokens, i); }
    CollectsWhenRead(ReadAll(tokens));
  }

  /** Good tokens joined are a valid list that names what the tokens name. */
  lemma {:induction false} JoinedNames(tokens: seq<string>, text: string)
    requires tokens != [] && GoodTokens(tokens) && text == Join(tokens, ", ")
    ensures Valid(text) && !Blank(text)
    ensures forall p :: Admits(text, p) <==> TokensName(tokens, p)
  {
    JoinedReads(tokens);
    GoodTokensRead(tokens);
    JoinedNotBlank(tokens, ", ");
    forall p ensures Admits(text, p) <==> TokensName(tokens, p) { PiecesName(text, p); }
  }

  /** Joining to a text that is already joined. */
  lemma {:induction false} JoinNested(a: seq<string>, b: seq<string>, sep: string)
    requires a != []
    ensures Join([Join(a, sep)] + b, sep) == Join(a + b, sep)
  {
    if b == [] {
      assert a + b == a;
    } else {
      assert ([Join(a, sep)] + b)[1..] == b;
      JoinAppend(a, b, sep);
    }
  }

  lemma {:induction false} JoinAppend(a: seq<string>, b: seq<string>, sep: string)
    requires a != [] && b != []
    ensures Join(a + b, sep) == Join(a, sep) + sep + Join(b, sep)
  {
    assert (a + b)[1..] == a[1..] + b;
    if |a| > 1 {
      JoinAppend(a[1..], b, sep);
    } else {
      assert a[1..] == [];
      assert (a + b)[1..] == b;
    }
  }

  lemma {:induction false} TokensNameIn(tokens: seq<string>, p: int)
    ensures TokensName(tokens, p) <==> exists t :: t in tokens && TokenNames(t, p)
  {
    if TokensName(tokens, p) {
      var i :| 0 <= i < |tokens| && ReadsAs(ReadAll(tokens)[i], p);
      ReadAllAt(tokens, i);
      assert TokenNames(tokens[i], p);
    }
    if t :| t in tokens && TokenNames(t, p) {
      var i :| 0 <= i < |tokens| && tokens[i] == t;
      ReadAllAt(tokens, i);
    }
  }

  // ----- the claims of a section -----

  datatype PortClaim = PortClaim(ports: string, all: bool)

  /** A claim as a rule reads it: no port text means every port. */
  predicate ClaimAdmits(claims: map<Protocol, PortClaim>, proto: Protocol, p: int) {
    proto in claims && (claims[proto].all || Admits(claims[proto].ports, p))
  }

  /** What one strategy contributes: its narrowed list, for each protocol it keeps. */
  predicate StrategyAdds(c: Config, s: Section, name: string, proto: Protocol, port: int) {
    var found := c.ZapretStrategyByName(name);
    if found.None? then !StrategyCovers(c, s, name, proto, port)
    else
      var zs := SectionStrategy(s, found.value);
      && (StrategyCovers(c, s, name, proto, port) <==> ProtocolEnabled(zs, proto) && Admits(zs.PortsFor(proto), port))
      && (ProtocolEnabled(zs, proto) ==> Valid(zs.PortsFor(proto)))
  }

  lemma {:induction false} StrategyAddsIts(c: Config, s: Section, name: string, proto: Protocol, port: int)
    requires proto.Tcp? || proto.Udp?
    ensures StrategyAdds(c, s, name, proto, port)
  {
    var found := c.ZapretStrategyByName(name);
    if found.Some? {
      SectionStrategyProtocols(s, found.value, proto);
    }
  }

  lemma {:induction false} BlankMeans(ports: string)
    ensures Blank(ports) <==> TrimSpace(ports) == ""
    ensures Blank(ports) ==> forall p :: Admits(ports, p)
  {
  }

  /** The claim of a protocol is its tokens joined, and the tokens are those seen. */
  ghost predicate Slot(claims: map<Protocol, PortClaim>, seen: map<Protocol, set<string>>, tokens: map<Protocol,
      seq<string>>, q: Protocol)
  {
    && (q in seen <==> q in tokens)
    && (q in tokens ==> q in claims && tokens[q] != [] && GoodTokens(tokens[q]))
    && (q in tokens ==> forall t :: t in seen[q] <==> t in tokens[q])
    && (q in claims ==>
          if claims[q].all then claims[q].ports == "" else q in tokens && claims[q].ports == Join(tokens[q], ", "))
  }

  /** The two maps that the claims of a section are gathered in. */
  class ClaimTable {
    var claims: map<Protocol, PortClaim>
    var seen: map<Protocol, set<string>>
    ghost var tokens: map<Protocol, seq<string>>

    ghost predicate Valid()
      reads this
    {
      forall q :: Slot(claims, seen, tokens, q)
    }

    constructor ()
      ensures Valid() && claims == map[]
    {
      claims, seen, tokens := map[], map[], map[];
    }

    method Add(proto: Protocol, ports: string)
      requires Valid() && Ports.Valid(ports)
      modifies this
      ensures Valid() && claims.Keys == old(claims.Keys) + {proto}
      ensures forall q, p :: ClaimAdmits(claims, q, p) <==>
                             old(ClaimAdmits(claims, q, p)) || (q == proto && Admits(ports, p))
    {
      hide Ports.Valid, TrimSpace, GoodTokens, Admits, Blank, Join;
      BlankMeans(ports);
      assert Slot(claims, seen, tokens, proto);
      ghost var c0, s0, t0 := claims, seen, tokens;
      var cl := if proto in claims then claims[proto] else PortClaim("", false);
      if cl.all {
        return;
      }
      if TrimSpace(ports) == "" {
        claims := claims[proto := PortClaim("", true)];
      } else {
        var mine := if proto in seen then seen[proto] else {};
        var text;
        ghost var all;
        text, mine, all := Union(cl.ports, mine, ports, if proto in tokens then tokens[proto] else []);
        claims := claims[proto := PortClaim(text, false)];
        seen := seen[proto := mine];
        tokens := tokens[proto := all];
      }
      forall q ensures Slot(claims, seen, tokens, q) {
        assert Slot(c0, s0, t0, q);
      }
      assert forall q, p :: q != proto ==> (ClaimAdmits(claims, q, p) <==> ClaimAdmits(c0, q, p));
    }

    /** One turn of the loop over the strategies of a section. */
    method AddStrategy(c: Config, s: Section, name: string)
      requires Valid() && claims.Keys <= {Tcp, Udp}
      modifies this
      ensures Valid() && claims.Keys <= {Tcp, Udp}
      ensures forall q: Protocol, p :: (q.Tcp? || q.Udp?) ==>
                (ClaimAdmits(claims, q, p) <==> old(ClaimAdmits(claims, q, p)) || StrategyCovers(c, s, name, q, p))
    {
      hide StrategyCovers, Admits, Narrow, TrimSpace, Lower, StrategyFrom, SectionStrategy, Ports.Valid,
          ClaimAdmits, Valid, ProtocolEnabled;
      var found := c.ZapretStrategyByName(name);
      forall q: Protocol, p | q.Tcp? || q.Udp? ensures StrategyAdds(c, s, name, q, p) {
        StrategyAddsIts(c, s, name, q, p);
      }
      if found.None? {
        forall q: Protocol, p | q.Tcp? || q.Udp?
          ensures !StrategyCovers(c, s, name, q, p)
        {
          assert StrategyAdds(c, s, name, q, p);
        }
        return;
      }
      var zs := SectionStrategy(s, found.value);
      assert StrategyAdds(c, s, name, Tcp, 0) && StrategyAdds(c, s, name, Udp, 0);
      if ProtocolEnabled(zs, Tcp) {
        Add(Tcp, zs.tcpPorts);
      }
      if ProtocolEnabled(zs, Udp) {
        Add(Udp, zs.udpPorts);
      }
      forall q: Protocol, p | q.Tcp? || q.Udp?
        ensures StrategyCovers(c, s, name, q, p) <==> ProtocolEnabled(zs, q) && Admits(zs.PortsFor(q), p)
      {
        assert StrategyAdds(c, s, name, q, p);
      }
    }
  }

  /** The text of a claim with the unseen pieces of another list behind it. */
  method Union(text: string, seen: set<string>, ports: string, ghost had: seq<string>)
    returns (joined: string, after: set<string>, ghost all: seq<string>)
    requires Valid(ports) && !Blank(ports) && GoodTokens(had)
    requires text == if had == [] then "" else Join(had, ", ")
    requires forall t :: t in seen <==> t in had
    ensures GoodTokens(all) && all != [] && joined == Join(all, ", ")
    ensures forall t :: t in after <==> t in all
    ensures forall p :: Admits(joined, p) <==> (had != [] && Admits(text, p)) || Admits(ports, p)
  {
    var parts := [];
    if text != "" {
      parts := [text];
    }
    TrimmedTokens(ports);
    var added;
    added, after := NewTokens(Split(ports, ','), seen, had);
    all := had + added;
    parts := parts + added;
    GrownTokens(had, ports, all);
    GrownText(had, added, text, parts);
    joined := Join(parts, ", ");
    forall p ensures Admits(joined, p) <==> (had != [] && Admits(text, p)) || Admits(ports, p) {
      ClaimGrows(ports, had, all, text, joined, p);
    }
  }

  function Trimmed(pieces: seq<string>): (r: seq<string>)
    ensures |r| == |pieces| && forall i :: 0 <= i < |r| ==> r[i] == TrimSpace(pieces[i])
  {
    seq(|pieces|, i requires 0 <= i < |pieces| => TrimSpace(pieces[i]))
  }

  ghost predicate GrownBy(had: seq<string>, trimmed: seq<string>, all: seq<string>) {
    forall t :: t in all <==> t in had || t in trimmed
  }

  /** The trimmed pieces not seen yet, in order. */
  method NewTokens(pieces: seq<string>, seen: set<string>, ghost had: seq<string>)
    returns (added: seq<string>, after: set<string>)
    requires forall t :: t in seen <==> t in had
    requires "" !in Trimmed(pieces)
    ensures GrownBy(had, Trimmed(pieces), had + added)
    ensures forall t :: t in after <==> t in had + added
  {
    added, after := [], seen;
    ghost var trimmed := Trimmed(pieces);
    for i := 0 to |pieces|
      invariant forall t :: t in after <==> t in had || t in added
      invariant forall t :: t in after <==> t in had || t in trimmed[..i]
    {
      var p := TrimSpace(pieces[i]);
      assert p == trimmed[i] && trimmed[..i + 1] == trimmed[..i] + [p];
      if p == "" || p in after {
        continue;
      }
      after := after + {p};
      added := added + [p];
    }
    assert trimmed[..|pieces|] == trimmed;
  }

  lemma {:induction false} TrimmedTokens(ports: string)
    requires Valid(ports) && !Blank(ports)
    ensures GoodTokens(Trimmed(Split(ports, ','))) && "" !in Trimmed(Split(ports, ','))
  {
    var trimmed := Trimmed(Split(ports, ','));
    forall i | 0 <= i < |trimmed| ensures GoodToken(trimmed[i]) && trimmed[i] != "" { TrimmedToken(ports, i); }
  }

  lemma {:induction false} GrownTokens(had: seq<string>, ports: string, all: seq<string>)
    requires Valid(ports) && !Blank(ports) && GoodTokens(had)
    requires GrownBy(had, Trimmed(Split(ports, ',')), all)
    ensures GoodTokens(all) && all != []
  {
    var trimmed := Trimmed(Split(ports, ','));
    TrimmedTokens(ports);
    assert trimmed[0] in all;
    forall i | 0 <= i < |all| ensures GoodToken(all[i]) { GoodMember(had, trimmed, all[i]); }
  }

  lemma {:induction false} GoodMember(a: seq<string>, b: seq<string>, t: string)
    requires GoodTokens(a) && GoodTokens(b) && (t in a || t in b)
    ensures GoodToken(t)
  {
  }

  /** The text built from the old text and the new tokens. */
  lemma {:induction false} GrownText(had: seq<string>, added: seq<string>, text: string, parts: seq<string>)
    requires GoodTokens(had) && had + added != []
    requires text == Join(had, ", ") && parts == (if text != "" then [text] else []) + added
    ensures Join(parts, ", ") == Join(had + added, ", ")
  {
    if had == [] {
      assert parts == had + added;
    } else {
      JoinedNames(had, text);
      assert text != "" by { assert TrimSpace("") == ""; }
      JoinNested(had, added, ", ");
    }
  }

  /** What a claim names once the pieces of another list are in. */
  lemma {:induction false} ClaimGrows(ports: string, had: seq<string>, all: seq<string>, was: string, now: string,
      p: int)
    requires Valid(ports) && !Blank(ports) && GoodTokens(had) && GoodTokens(all) && all != []
    requires GrownBy(had, Trimmed(Split(ports, ',')), all)
    requires was == Join(had, ", ") && now == Join(all, ", ")
    ensures Admits(now, p) <==> (had != [] && Admits(was, p)) || Admits(ports, p)
  {
    JoinedNames(all, now);
    if had != [] { JoinedNames(had, was); }
    TokensGrow(ports, had, all, p);
  }

  lemma {:induction false} TokensGrow(ports: string, had: seq<string>, all: seq<string>, p: int)
    requires Valid(ports) && !Blank(ports)
    requires GrownBy(had, Trimmed(Split(ports, ',')), all)
    ensures TokensName(all, p) <==> TokensName(had, p) || Admits(ports, p)
  {
    var pieces := Split(ports, ',');
    var trimmed := Trimmed(pieces);
    PiecesName(ports, p);
    TrimmedReads(ports);
    TokensNameIn(all, p);
    TokensNameIn(had, p);
    TokensNameIn(trimmed, p);
  }

  lemma {:induction false} TrimmedReads(ports: string)
    requires Valid(ports) && !Blank(ports)
    ensures forall p :: TokensName(Trimmed(Split(ports, ',')), p) <==> TokensName(Split(ports, ','), p)
  {
    var pieces := Split(ports, ',');
    var trimmed := Trimmed(pieces);
    forall i, p | 0 <= i < |pieces| ensures ReadsAs(ReadAll(trimmed)[i], p) <==> ReadsAs(ReadAll(pieces)[i], p) {
      ReadAllAt(pieces, i);
      ReadAllAt(trimmed, i);
      TrimmedToken(ports, i);
      assert TokenNames(trimmed[i], p) <==> TokenNames(pieces[i], p);
    }
    forall p ensures TokensName(trimmed, p) <==> TokensName(pieces, p) {
      SameReads(ReadAll(trimmed), ReadAll(pieces), p);
    }
  }

  lemma {:induction false} SameReads(a: seq<Result<PortRange>>, b: seq<Result<PortRange>>, p: int)
    requires |a| == |b| && forall i :: 0 <= i < |a| ==> (ReadsAs(a[i], p) <==> ReadsAs(b[i], p))
    ensures ReadsName(a, p) <==> ReadsName(b, p)
  {
    if ReadsName(a, p) {
      var i :| 0 <= i < |a| && ReadsAs(a[i], p);
      assert ReadsAs(b[i], p);
    }
  }

  /** zapretSectionPortClaims: the claim is exactly what the section and its strategies let through. */
  method ZapretSectionPortClaims(c: Config, s: Section) returns (claims: map<Protocol, PortClaim>)
    ensures claims.Keys <= {Tcp, Udp}
    ensures forall q :: q in claims && claims[q].all ==> claims[q].ports == ""
    ensures forall q: Protocol, p :: (q.Tcp? || q.Udp?) ==> (ClaimAdmits(claims, q, p) <==> Covered(c, s, q, p))
  {
    hide StrategyCovers, Admits;
    var table := new ClaimTable();
    for i := 0 to |s.zapretStrategies|
      invariant table.Valid() && table.claims.Keys <= {Tcp, Udp} && fresh(table)
      invariant forall q: Protocol, p :: (q.Tcp? || q.Udp?) ==>
                  (ClaimAdmits(table.claims, q, p) <==> Any(s.zapretStrategies[..i], Covers(c, s, q, p)))
    {
      forall q, p ensures Any(s.zapretStrategies[..i + 1], Covers(c, s, q, p)) <==>
                          Any(s.zapretStrategies[..i], Covers(c, s, q, p))
                          || StrategyCovers(c, s, s.zapretStrategies[i], q, p)
      {
        AnySnoc(s.zapretStrategies, i, Covers(c, s, q, p));
      }
      table.AddStrategy(c, s, s.zapretStrategies[i]);
    }
    assert s.zapretStrategies[..|s.zapretStrategies|] == s.zapretStrategies;
    forall q | q in table.claims && table.claims[q].all ensures table.claims[q].ports == "" {
      assert Slot(table.claims, table.seen, table.tokens, q);
    }
    claims := table.claims;
  }

  // ----- the queue rules of a section -----

  datatype Window = FirstPackets(count: int) | FinOrRst

  datatype QueueRule = QueueRule(
    family: Family, dst: string, interfaces: seq<string>, selector: nat, fwMark: string,
    proto: Protocol, ports: string, window: Window)

  /** Leaving by one of the interfaces; None stands for any device. */
  predicate LeavesBy(interfaces: seq<string>, wan: Option<string>) {
    wan.None? || interfaces == [] || wan.value in interfaces
  }

  predicate Queues(r: QueueRule, f: Family, dst: string, proto: Protocol, port: int, wan: Option<string>) {
    r.family == f && r.dst == dst && r.proto == proto && Admits(r.ports, port) && LeavesBy(r.interfaces, wan)
  }

  function QueuesFor(f: Family, dst: string, proto: Protocol, port: int, wan: Option<string>): QueueRule -> bool {
    r => Queues(r, f, dst, proto, port, wan)
  }

  /** The profile of a strategy is there and takes the flow's device. */
  predicate StrategyQueues(c: Config, s: Section, name: string, proto: Protocol, port: int, wan: Option<string>) {
    && StrategyCovers(c, s, name, proto, port)
    && ProfileTakes(c, name, wan)
  }

  predicate ProfileTakes(c: Config, name: string, wan: Option<string>) {
    var zs := c.ZapretStrategyByName(name);
    && zs.Some?
    && c.ZapretProfileByName(zs.value.profile).Some?
    && LeavesBy(c.ZapretProfileByName(zs.value.profile).value.interfaces, wan)
  }

  function Queueing(c: Config, s: Section, proto: Protocol, port: int, wan: Option<string>): string -> bool {
    name => StrategyQueues(c, s, name, proto, port, wan)
  }

  /** Some strategy of the section has its profile and lets the flow through. */
  predicate Queued(c: Config, s: Section, proto: Protocol, port: int, wan: Option<string>) {
    Any(s.zapretStrategies, Queueing(c, s, proto, port, wan))
  }

  /** writeZapretPostroutingSetRules. */
  function SetRules(f: Family, dst: string, p: ZapretProfile, zs: ZapretStrategy): seq<QueueRule> {
    (if ProtocolEnabled(zs, Tcp) then
       [QueueRule(f, dst, p.interfaces, zs.selectorMark, p.fwMark, Tcp, zs.tcpPorts, FirstPackets(zs.tcpPktOut)),
        QueueRule(f, dst, p.interfaces, zs.selectorMark, p.fwMark, Tcp, zs.tcpPorts, FinOrRst)]
     else []) +
    (if ProtocolEnabled(zs, Udp) then
       [QueueRule(f, dst, p.interfaces, zs.selectorMark, p.fwMark, Udp, zs.udpPorts, FirstPackets(zs.udpPktOut))]
     else [])
  }

  lemma {:induction false} SetRulesQueue(f: Family, dst: string, p: ZapretProfile, zs: ZapretStrategy, g: Family,
      d: string, proto: Protocol, port: int, wan: Option<string>)
    requires proto.Tcp? || proto.Udp?
    ensures Any(SetRules(f, dst, p, zs), QueuesFor(g, d, proto, port, wan)) <==>
            && f == g && dst == d && ProtocolEnabled(zs, proto)
            && Admits(zs.PortsFor(proto), port) && LeavesBy(p.interfaces, wan)
  {
    hide ProtocolEnabled, Admits;
    var rules := SetRules(f, dst, p, zs);
    if && f == g && dst == d && ProtocolEnabled(zs, proto)
       && Admits(zs.PortsFor(proto), port) && LeavesBy(p.interfaces, wan)
    {
      var i := if proto.Tcp? then 0 else |rules| - 1;
      assert QueuesFor(g, d, proto, port, wan)(rules[i]);
    }
  }

  /** The rules of one strategy: both sets of each routed family. */
  function StrategyRules(c: Config, s: Section, p: ZapretProfile, zs: ZapretStrategy): seq<QueueRule> {
    FamilyRules(V4, s.SetRefs(V4), p, zs) + if c.IPv6Routed() then FamilyRules(V6, s.SetRefs(V6), p, zs) else []
  }

  function FamilyRules(f: Family, refs: seq<string>, p: ZapretProfile, zs: ZapretStrategy): seq<QueueRule>
    requires |refs| == 2
  {
    SetRules(f, refs[0], p, zs) + SetRules(f, refs[1], p, zs)
  }

  lemma {:induction false} StrategyRulesQueue(c: Config, s: Section, p: ZapretProfile, zs: ZapretStrategy,
      g: Family, d: string, proto: Protocol, port: int, wan: Option<string>)
    requires proto.Tcp? || proto.Udp?
    ensures Any(StrategyRules(c, s, p, zs), QueuesFor(g, d, proto, port, wan)) <==>
            && c.Routes(g) && d in s.SetRefs(g)
            && ProtocolEnabled(zs, proto) && Admits(zs.PortsFor(proto), port) && LeavesBy(p.interfaces, wan)
  {
    hide ProtocolEnabled, Admits, SetRules, Any, QueuesFor;
    var f := QueuesFor(g, d, proto, port, wan);
    forall h: Family | true
      ensures Any(FamilyRules(h, s.SetRefs(h), p, zs), f) <==>
              && h == g && d in s.SetRefs(h)
              && ProtocolEnabled(zs, proto) && Admits(zs.PortsFor(proto), port) && LeavesBy(p.interfaces, wan)
    {
      var refs := s.SetRefs(h);
      SetRulesQueue(h, refs[0], p, zs, g, d, proto, port, wan);
      SetRulesQueue(h, refs[1], p, zs, g, d, proto, port, wan);
      AnyConcat(SetRules(h, refs[0], p, zs), SetRules(h, refs[1], p, zs), f);
    }
    if c.IPv6Routed() {
      AnyConcat(FamilyRules(V4, s.SetRefs(V4), p, zs), FamilyRules(V6, s.SetRefs(V6), p, zs), f);
    } else {
      AnyConcat(FamilyRules(V4, s.SetRefs(V4), p, zs), [], f);
      NoneQueue(f);
    }
  }

  lemma {:induction false} NoneQueue(f: QueueRule -> bool)
    ensures !Any([], f)
  {
  }

  // ----- whose rules they are -----

  /** The packets of a connection that a strategy wants to see, of each protocol. */
  predicate Watches(zs: ZapretStrategy, proto: Protocol, w: Window) {
    || (proto.Tcp? && (w == FirstPackets(zs.tcpPktOut) || w == FinOrRst))
    || (proto.Udp? && w == FirstPackets(zs.udpPktOut))
  }

  /**
    The rule is one of that strategy's in that section: its selector, its
    windows, its profile's mark and devices, the section's sets, and the ports
    that section and strategy let through.
  */
  ghost predicate RuleOf(c: Config, s: Section, name: string, r: QueueRule) {
    var zs := c.ZapretStrategyByName(name);
    && zs.Some?
    && r.selector == zs.value.selectorMark && Watches(zs.value, r.proto, r.window)
    && c.ZapretProfileByName(zs.value.profile).Some?
    && r.fwMark == c.ZapretProfileByName(zs.value.profile).value.fwMark
    && r.interfaces == c.ZapretProfileByName(zs.value.profile).value.interfaces
    && c.Routes(r.family) && r.dst in s.SetRefs(r.family)
    && forall port :: Admits(r.ports, port) <==> StrategyCovers(c, s, name, r.proto, port)
  }

  /** That strategy has a rule of the section for this set, protocol and window. */
  ghost predicate HasRule(c: Config, s: Section, name: string, rules: seq<QueueRule>, g: Family, d: string,
      proto: Protocol, w: Window) {
    exists r :: r in rules && RuleOf(c, s, name, r) && r.family == g && r.dst == d && r.proto == proto && r.window == w
  }

  /** The strategy covers the pair in that set, its profile is there, and it watches the window. */
  predicate Wants(c: Config, s: Section, name: string, g: Family, d: string, proto: Protocol, port: int, w: Window) {
    && c.Routes(g) && d in s.SetRefs(g) && StrategyCovers(c, s, name, proto, port) && ProfileTakes(c, name, None)
    && Watches(c.ZapretStrategyByName(name).value, proto, w)
  }

  /** Every window of every set and protocol that the strategy wants has its rule. */
  ghost predicate HasRules(c: Config, s: Section, name: string, rules: seq<QueueRule>) {
    forall g, d, proto, port, w ::
      Wants(c, s, name, g, d, proto, port, w) ==> HasRule(c, s, name, rules, g, d, proto, w)
  }

  /** The rule is one of some strategy of the section. */
  ghost predicate RuleOfSection(c: Config, s: Section, r: QueueRule) {
    exists k :: 0 <= k < |s.zapretStrategies| && RuleOf(c, s, s.zapretStrategies[k], r)
  }

  /** The rules of the strategy of that name, none when it or its profile is missing. */
  function RulesNamed(c: Config, s: Section, name: string): seq<QueueRule> {
    match c.ZapretStrategyByName(name)
    case None => []
    case Some(zs) =>
      match c.ZapretProfileByName(zs.profile)
      case None => []
      case Some(p) => StrategyRules(c, s, p, SectionStrategy(s, zs))
  }

  /** Name after name. */
  function RulesOfNames(c: Config, s: Section, names: seq<string>): seq<QueueRule> {
    if names == [] then []
    else RulesOfNames(c, s, names[..|names| - 1]) + RulesNamed(c, s, names[|names| - 1])
  }

  /** Section after section. */
  function RulesOfSections(c: Config, ss: seq<Section>): seq<QueueRule> {
    if ss == [] then []
    else
      var s := ss[|ss| - 1];
      RulesOfSections(c, ss[..|ss| - 1]) + if s.action.Zapret? then RulesOfNames(c, s, s.zapretStrategies) else []
  }

  /** Each strategy of the section has its rules. */
  ghost predicate HasAllRules(c: Config, s: Section, rules: seq<QueueRule>) {
    forall k :: 0 <= k < |s.zapretStrategies| ==> HasRules(c, s, s.zapretStrategies[k], rules)
  }

  lemma {:induction false} SetRulesAre(f: Family, dst: string, p: ZapretProfile, zs: ZapretStrategy, r: QueueRule)
    ensures r in SetRules(f, dst, p, zs) <==>
              && r.family == f && r.dst == dst && r.interfaces == p.interfaces && r.fwMark == p.fwMark
              && r.selector == zs.selectorMark && Watches(zs, r.proto, r.window)
              && ProtocolEnabled(zs, r.proto) && r.ports == zs.PortsFor(r.proto)
  {
    hide ProtocolEnabled;
    var rules := SetRules(f, dst, p, zs);
    if ProtocolEnabled(zs, Tcp) { assert rules[0] in rules && rules[1] in rules; }
    if ProtocolEnabled(zs, Udp) { assert rules[|rules| - 1] in rules; }
  }

  lemma {:induction false} StrategyRulesAre(c: Config, s: Section, p: ZapretProfile, zs: ZapretStrategy, r: QueueRule)
    ensures r in StrategyRules(c, s, p, zs) <==>
              && c.Routes(r.family) && r.dst in s.SetRefs(r.family)
              && r.interfaces == p.interfaces && r.fwMark == p.fwMark
              && r.selector == zs.selectorMark && Watches(zs, r.proto, r.window)
              && ProtocolEnabled(zs, r.proto) && r.ports == zs.PortsFor(r.proto)
  {
    hide ProtocolEnabled, SetRules, Watches, Section.NFTSet;
    var four, six := s.SetRefs(V4), s.SetRefs(V6);
    SetRulesAre(V4, four[0], p, zs, r);
    SetRulesAre(V4, four[1], p, zs, r);
    SetRulesAre(V6, six[0], p, zs, r);
    SetRulesAre(V6, six[1], p, zs, r);
  }

  lemma {:induction false} RulesOfStrategy(c: Config, s: Section, name: string, zs: ZapretStrategy, p: ZapretProfile)
    requires c.ZapretStrategyByName(name) == Some(zs) && c.ZapretProfileByName(zs.profile) == Some(p)
    ensures forall r :: r in StrategyRules(c, s, p, SectionStrategy(s, zs)) ==> RuleOf(c, s, name, r)
    ensures HasRules(c, s, name, StrategyRules(c, s, p, SectionStrategy(s, zs)))
  {
    hide Admits, ProtocolEnabled, StrategyFrom, ProfileFrom, StrategyCovers, StrategyRules, Section.SetRefs,
        SectionStrategy;
    var cut := SectionStrategy(s, zs);
    CutKeeps(s, zs);
    var rules := StrategyRules(c, s, p, cut);
    forall r | r in rules ensures RuleOf(c, s, name, r) {
      StrategyRulesAre(c, s, p, cut, r);
      forall port ensures Admits(r.ports, port) <==> StrategyCovers(c, s, name, r.proto, port) {
        StrategyAddsIts(c, s, name, r.proto, port);
      }
    }
    forall g, d, proto, port, w | Wants(c, s, name, g, d, proto, port, w)
      ensures HasRule(c, s, name, rules, g, d, proto, w)
    {
      StrategyAddsIts(c, s, name, proto, port);
      var r := QueueRule(g, d, p.interfaces, zs.selectorMark, p.fwMark, proto, cut.PortsFor(proto), w);
      StrategyRulesAre(c, s, p, cut, r);
      assert r in rules && RuleOf(c, s, name, r);
    }
  }

  /** Cutting a strategy down to a section changes ports and protocols alone. */
  lemma {:induction false} CutKeeps(s: Section, zs: ZapretStrategy)
    ensures var cut := SectionStrategy(s, zs);
            && cut.selectorMark == zs.selectorMark && cut.profile == zs.profile
            && cut.tcpPktOut == zs.tcpPktOut && cut.udpPktOut == zs.udpPktOut
    ensures forall proto, w :: Watches(SectionStrategy(s, zs), proto, w) <==> Watches(zs, proto, w)
  {
  }

  lemma {:induction false} MoreRules(c: Config, s: Section, name: string, a: seq<QueueRule>, b: seq<QueueRule>)
    requires HasRules(c, s, name, a) || HasRules(c, s, name, b)
    ensures HasRules(c, s, name, a + b)
  {
    hide RuleOf, Wants;
    forall g, d, proto, port, w | Wants(c, s, name, g, d, proto, port, w)
      ensures HasRule(c, s, name, a + b, g, d, proto, w)
    {
      assert HasRule(c, s, name, a, g, d, proto, w) || HasRule(c, s, name, b, g, d, proto, w);
    }
  }

  predicate SectionQueues(c: Config, s: Section, g: Family, d: string, proto: Protocol, port: int,
      wan: Option<string>) {
    c.Routes(g) && d in s.SetRefs(g) && Queued(c, s, proto, port, wan)
  }

  /** The rules queue exactly what the first `n` strategies of the section queue. */
  ghost predicate QueuesFirst(c: Config, s: Section, n: nat, rules: seq<QueueRule>)
    requires n <= |s.zapretStrategies|
  {
    forall g, d, proto: Protocol, port, wan :: (proto.Tcp? || proto.Udp?) ==>
      (Any(rules, QueuesFor(g, d, proto, port, wan)) <==>
       c.Routes(g) && d in s.SetRefs(g) && Any(s.zapretStrategies[..n], Queueing(c, s, proto, port, wan)))
  }

  lemma {:induction false} QueuesOneMore(c: Config, s: Section, i: nat, rules: seq<QueueRule>, more: seq<QueueRule>)
    requires i < |s.zapretStrategies| && QueuesFirst(c, s, i, rules)
    requires forall g, d, proto: Protocol, port, wan :: (proto.Tcp? || proto.Udp?) ==>
               (Any(more, QueuesFor(g, d, proto, port, wan)) <==>
                c.Routes(g) && d in s.SetRefs(g) && StrategyQueues(c, s, s.zapretStrategies[i], proto, port, wan))
    ensures QueuesFirst(c, s, i + 1, rules + more)
  {
    hide StrategyQueues, QueuesFor, Section.SetRefs, Any;
    forall g, d, proto: Protocol, port, wan | proto.Tcp? || proto.Udp?
      ensures Any(rules + more, QueuesFor(g, d, proto, port, wan)) <==>
              c.Routes(g) && d in s.SetRefs(g) && Any(s.zapretStrategies[..i + 1], Queueing(c, s, proto, port, wan))
    {
      AnyConcat(rules, more, QueuesFor(g, d, proto, port, wan));
      AnySnoc(s.zapretStrategies, i, Queueing(c, s, proto, port, wan));
    }
  }

  /** writeZapretPostroutingRules: a rule queues a flow exactly when some strategy of the section does. */
  method WriteZapretPostroutingRules(c: Config, s: Section) returns (rules: seq<QueueRule>)
    ensures forall g, d, proto: Protocol, port, wan :: (proto.Tcp? || proto.Udp?) ==>
              (Any(rules, QueuesFor(g, d, proto, port, wan)) <==> SectionQueues(c, s, g, d, proto, port, wan))
    ensures forall r :: r in rules ==> RuleOfSection(c, s, r)
    ensures HasAllRules(c, s, rules)
    ensures rules == RulesOfNames(c, s, s.zapretStrategies)
  {
    hide StrategyQueues, SectionStrategy, RuleOf, HasRules, QueuesFor, RulesNamed;
    rules := [];
    for i := 0 to |s.zapretStrategies|
      invariant QueuesFirst(c, s, i, rules)
      invariant rules == RulesOfNames(c, s, s.zapretStrategies[..i])
      invariant forall r :: r in rules ==> RuleOfSection(c, s, r)
      invariant forall k :: 0 <= k < i ==> HasRules(c, s, s.zapretStrategies[k], rules)
    {
      var more := OneStrategy(c, s, s.zapretStrategies[i]);
      forall k | 0 <= k <= i ensures HasRules(c, s, s.zapretStrategies[k], rules + more) {
        MoreRules(c, s, s.zapretStrategies[k], rules, more);
      }
      QueuesOneMore(c, s, i, rules, more);
      assert s.zapretStrategies[..i + 1][..i] == s.zapretStrategies[..i];
      rules := rules + more;
    }
    assert s.zapretStrategies[..|s.zapretStrategies|] == s.zapretStrategies;
  }

  method OneStrategy(c: Config, s: Section, name: string) returns (rules: seq<QueueRule>)
    ensures forall g, d, proto: Protocol, port, wan :: (proto.Tcp? || proto.Udp?) ==>
              (Any(rules, QueuesFor(g, d, proto, port, wan)) <==>
               c.Routes(g) && d in s.SetRefs(g) && StrategyQueues(c, s, name, proto, port, wan))
    ensures forall r :: r in rules ==> RuleOf(c, s, name, r)
    ensures HasRules(c, s, name, rules)
    ensures rules == RulesNamed(c, s, name)
  {
    hide SectionStrategy, StrategyFrom, ProfileFrom, Any, Admits, ProtocolEnabled, StrategyCovers, QueuesFor, RuleOf,
        HasRule, Section.SetRefs;
    var found := c.ZapretStrategyByName(name);
    if found.None? {
      forall f ensures !Any<QueueRule>([], f) { NoneQueue(f); }
      return [];
    }
    var zs := SectionStrategy(s, found.value);
    assert zs.profile == found.value.profile by { NarrowedProfile(s, found.value); }
    var p := c.ZapretProfileByName(zs.profile);
    if p.None? {
      forall f ensures !Any<QueueRule>([], f) { NoneQueue(f); }
      return [];
    }
    rules := StrategyRules(c, s, p.value, zs);
    RulesOfStrategy(c, s, name, found.value, p.value);
    forall g, d, proto: Protocol, port, wan | proto.Tcp? || proto.Udp?
      ensures Any(rules, QueuesFor(g, d, proto, port, wan)) <==>
              c.Routes(g) && d in s.SetRefs(g) && StrategyQueues(c, s, name, proto, port, wan)
    {
      StrategyAddsIts(c, s, name, proto, port);
      StrategyRulesQueue(c, s, p.value, zs, g, d, proto, port, wan);
    }
  }

  lemma {:induction false} NarrowedProfile(s: Section, zs: ZapretStrategy)
    ensures SectionStrategy(s, zs).profile == zs.profile
  {
  }

  // ----- the postrouting chain -----

  predicate HasProfile(ps: seq<ZapretProfile>) { exists i :: 0 <= i < |ps| && ps[i].enabled && ps[i].name != "" }

  predicate HasStrategy(c: Config, s: Section) {
    && s.enabled && s.action.Zapret?
    && exists i :: 0 <= i < |s.zapretStrategies| && c.ZapretStrategyByName(s.zapretStrategies[i]).Some?
  }

  /** The chain is written only for a configuration with a profile and a strategy in use. */
  predicate ChainWritten(c: Config) {
    HasProfile(c.zapretProfiles) && exists i :: 0 <= i < |c.sections| && HasStrategy(c, c.sections[i])
  }

  lemma {:induction false} ProfileIsThere(ps: seq<ZapretProfile>, name: string)
    requires ProfileFrom(ps, name).Some?
    ensures HasProfile(ps)
  {
    if ps[0].enabled && ps[0].name != "" && ps[0].name == name {
      assert ps[0].enabled;
    } else {
      ProfileIsThere(ps[1..], name);
      var i :| 0 <= i < |ps[1..]| && ps[1..][i].enabled && ps[1..][i].name != "";
      assert ps[i + 1] == ps[1..][i];
    }
  }

  /** Nothing that is queued is lost to that test. */
  lemma {:induction false} QueuedIsWritten(c: Config, s: Section, proto: Protocol, port: int, wan: Option<string>)
    requires s in c.sections && s.enabled && s.action.Zapret? && Queued(c, s, proto, port, wan)
    ensures ChainWritten(c)
  {
    hide Admits, Narrow, StrategyFrom, ProfileFrom;
    var i :| 0 <= i < |s.zapretStrategies| && Queueing(c, s, proto, port, wan)(s.zapretStrategies[i]);
    ProfileIsThere(c.zapretProfiles, c.ZapretStrategyByName(s.zapretStrategies[i]).value.profile);
    assert HasStrategy(c, s);
    var k :| 0 <= k < |c.sections| && c.sections[k] == s;
    assert HasStrategy(c, c.sections[k]);
  }

  /** The rule is one of some zapret section. */
  ghost predicate RuleOfSome(c: Config, ordered: seq<Section>, r: QueueRule) {
    exists i :: 0 <= i < |ordered| && ordered[i].action.Zapret? && RuleOfSection(c, ordered[i], r)
  }

  lemma {:induction false} MoreSectionRules(c: Config, s: Section, a: seq<QueueRule>, b: seq<QueueRule>)
    requires HasAllRules(c, s, a) || HasAllRules(c, s, b)
    ensures HasAllRules(c, s, a + b)
  {
    hide HasRules;
    forall k | 0 <= k < |s.zapretStrategies| ensures HasRules(c, s, s.zapretStrategies[k], a + b) {
      MoreRules(c, s, s.zapretStrategies[k], a, b);
    }
  }

  lemma {:induction false} UnwrittenWantsNothing(c: Config, s: Section)
    requires !ChainWritten(c) && s in c.sections && s.enabled && s.action.Zapret?
    ensures HasAllRules(c, s, [])
  {
    hide ChainWritten, StrategyCovers, Watches, HasRule, Section.SetRefs, ProfileTakes;
    forall k, g, d, proto, port, w | 0 <= k < |s.zapretStrategies|
      ensures !Wants(c, s, s.zapretStrategies[k], g, d, proto, port, w)
    {
      if Wants(c, s, s.zapretStrategies[k], g, d, proto, port, w) {
        assert Queueing(c, s, proto, port, None)(s.zapretStrategies[k]);
        QueuedIsWritten(c, s, proto, port, None);
      }
    }
  }

  function SectionQueueing(c: Config, g: Family, d: string, proto: Protocol, port: int,
      wan: Option<string>): Section -> bool {
    (s: Section) => s.action.Zapret? && SectionQueues(c, s, g, d, proto, port, wan)
  }

  /**
    The postrouting chain over the enabled sections: a rule queues a flow exactly
    when one of the zapret sections does.
  */
  method WritePostrouting(c: Config, ordered: seq<Section>) returns (rules: seq<QueueRule>)
    requires forall i :: 0 <= i < |ordered| ==> ordered[i] in c.sections && ordered[i].enabled
    ensures forall g, d, proto: Protocol, port, wan :: (proto.Tcp? || proto.Udp?) ==>
              (Any(rules, QueuesFor(g, d, proto, port, wan)) <==>
                  Any(ordered, SectionQueueing(c, g, d, proto, port, wan)))
    ensures forall r :: r in rules ==> RuleOfSome(c, ordered, r)
    ensures forall i :: 0 <= i < |ordered| && ordered[i].action.Zapret? ==> HasAllRules(c, ordered[i], rules)
    ensures rules == if ChainWritten(c) then RulesOfSections(c, ordered) else []
  {
    hide SectionQueues, QueuesFor, ChainWritten, RuleOfSection, HasAllRules, RulesOfNames;
    rules := [];
    if !ChainWritten(c) {
      forall g, d, proto: Protocol, port, wan ensures !Any(ordered, SectionQueueing(c, g, d, proto, port, wan)) {
        UnwrittenQueuesNothing(c, ordered, g, d, proto, port, wan);
      }
      forall i | 0 <= i < |ordered| && ordered[i].action.Zapret? ensures HasAllRules(c, ordered[i], []) {
        UnwrittenWantsNothing(c, ordered[i]);
      }
      return;
    }
    for i := 0 to |ordered|
      invariant forall g, d, proto: Protocol, port, wan :: (proto.Tcp? || proto.Udp?) ==>
        (Any(rules, QueuesFor(g, d, proto, port, wan)) <==>
            Any(ordered[..i], SectionQueueing(c, g, d, proto, port, wan)))
      invariant forall r :: r in rules ==> RuleOfSome(c, ordered, r)
      invariant forall k :: 0 <= k < i && ordered[k].action.Zapret? ==> HasAllRules(c, ordered[k], rules)
      invariant rules == RulesOfSections(c, ordered[..i])
    {
      assert ordered[..i + 1][..i] == ordered[..i];
      var more := [];
      if ordered[i].action.Zapret? {
        more := WriteZapretPostroutingRules(c, ordered[i]);
      }
      forall k | 0 <= k <= i && ordered[k].action.Zapret? ensures HasAllRules(c, ordered[k], rules + more) {
        MoreSectionRules(c, ordered[k], rules, more);
      }
      forall g, d, proto: Protocol, port, wan | proto.Tcp? || proto.Udp?
        ensures Any(rules + more, QueuesFor(g, d, proto, port, wan)) <==>
                Any(ordered[..i + 1], SectionQueueing(c, g, d, proto, port, wan))
      {
        AnyConcat(rules, more, QueuesFor(g, d, proto, port, wan));
        AnySnoc(ordered, i, SectionQueueing(c, g, d, proto, port, wan));
      }
      rules := rules + more;
    }
    assert ordered[..|ordered|] == ordered;
  }

  lemma {:induction false} UnwrittenQueuesNothing(c: Config, ordered: seq<Section>, g: Family, d: string,
      proto: Protocol, port: int, wan: Option<string>)
    requires !ChainWritten(c)
    requires forall i :: 0 <= i < |ordered| ==> ordered[i] in c.sections && ordered[i].enabled
    ensures !Any(ordered, SectionQueueing(c, g, d, proto, port, wan))
  {
    hide ChainWritten, Queued;
    forall i | 0 <= i < |ordered| ensures !SectionQueueing(c, g, d, proto, port, wan)(ordered[i]) {
      if ordered[i].action.Zapret? && Queued(c, ordered[i], proto, port, wan) {
        QueuedIsWritten(c, ordered[i], proto, port, wan);
      }
    }
  }

  // ----- claim against queue -----

  ghost predicate ProfilesResolve(c: Config, s: Section) {
    forall i :: 0 <= i < |s.zapretStrategies| && c.ZapretStrategyByName(s.zapretStrategies[i]).Some? ==>
      ProfileTakes(c, s.zapretStrategies[i], None)
  }

  /** A queued flow is always claimed; a claimed one is queued somewhere when every profile resolves. */
  lemma {:induction false} ClaimedIsQueued(c: Config, s: Section, proto: Protocol, port: int)
    ensures forall wan :: Queued(c, s, proto, port, wan) ==> Covered(c, s, proto, port)
    ensures ProfilesResolve(c, s) ==> (Covered(c, s, proto, port) <==> Queued(c, s, proto, port, None))
  {
    hide Admits, Narrow;
    forall wan | Queued(c, s, proto, port, wan) ensures Covered(c, s, proto, port) {
      var i :| 0 <= i < |s.zapretStrategies| && Queueing(c, s, proto, port, wan)(s.zapretStrategies[i]);
      assert Covers(c, s, proto, port)(s.zapretStrategies[i]);
    }
    if ProfilesResolve(c, s) && Covered(c, s, proto, port) {
      var i :| 0 <= i < |s.zapretStrategies| && Covers(c, s, proto, port)(s.zapretStrategies[i]);
      assert Queueing(c, s, proto, port, None)(s.zapretStrategies[i]);
    }
  }

  /**
    The claim a section makes before routing against the queue rules it gets
    after: the same (protocol, port) pairs.
  */
  method ClaimsAndQueues(c: Config, s: Section) returns (claims: map<Protocol, PortClaim>, rules: seq<QueueRule>)
    requires ProfilesResolve(c, s)
    ensures forall g, d, proto: Protocol, port ::
              (proto.Tcp? || proto.Udp?) && c.Routes(g) && d in s.SetRefs(g) ==>
                (ClaimAdmits(claims, proto, port) <==> Any(rules, QueuesFor(g, d, proto, port, None)))
  {
    hide Admits, Covered, Queued, Any, QueuesFor;
    claims := ZapretSectionPortClaims(c, s);
    rules := WriteZapretPostroutingRules(c, s);
    forall proto, port ensures Covered(c, s, proto, port) <==> Queued(c, s, proto, port, None) {
      ClaimedIsQueued(c, s, proto, port);
    }
  }
}
