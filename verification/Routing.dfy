/**
  The compiled chain against its predictors: what the classifier says a flow
  will meet is what the first matching rule does, and the router's own packets
  come back to the section that marked them.
*/
module Routing {
  import opened Lists
  import opened Text
  import opened Ports
  import opened Config
  import opened Zapret
  import opened Firewall
  import Checker
  import StableSort

  // ----- what is assumed of a configuration -----

  /** ValidateMatch. */
  predicate ValidateMatch(s: Section) {
    s.Scoped() ==> !s.matchProtocol.Unsupported? && Ports.Valid(s.destinationPorts)
  }

  ghost predicate Accepted(c: Config) {
    && (forall s :: s in c.sections ==> ValidateMatch(s))
    && (forall z :: z in c.zapretStrategies ==> PlainlySpelled(z))
  }

  /** The flow that a packet and its outgoing device make. */
  predicate Describes(f: Checker.Flow, pkt: Packet) {
    && f.protocol == Some(pkt.proto) && (pkt.proto.Tcp? || pkt.proto.Udp?)
    && f.port == pkt.dport && 1 <= pkt.dport <= 65535
    && f.wan != ""
  }

  // ----- zapret strategies seen from both sides -----

  lemma {:induction false} LookupSpelled(ss: seq<ZapretStrategy>, name: string, index: nat)
    requires forall i :: 0 <= i < |ss| ==> PlainlySpelled(ss[i])
    ensures var r := StrategyFrom(ss, name, index); r.Some? ==> PlainlySpelled(r.value)
  {
    if ss != [] && !(ss[0].name == name && ss[0].enabled) {
      LookupSpelled(ss[1..], name, index + 1);
    }
  }

  lemma {:induction false} PossibleWhenCovered(s: Section, zs: ZapretStrategy, proto: Protocol, port: int,
      f: Checker.Flow)
    requires PlainlySpelled(zs) && (proto.Tcp? || proto.Udp?)
    requires f.protocol == Some(proto) && f.port == port && 1 <= port <= 65535
    ensures Any(zs.protocols, Checker.PossibleFor(s, zs, f)) <==>
            Narrow(s, zs, proto).Some? && Admits(Narrow(s, zs, proto).value, port)
  {
    hide Intersection, Admits, TrimSpace, Lower, ProtocolEnabled, ProtocolOf;
    PlainlyEnabled(zs);
    PlainProtocols();
    PortScope(zs.PortsFor(proto), s.destinationPorts, port);
    var text := if proto.Tcp? then "tcp" else "udp";
    if ProtocolEnabled(zs, proto) {
      assert text in zs.protocols;
      var i :| 0 <= i < |zs.protocols| && zs.protocols[i] == text;
      assert Checker.PossibleFor(s, zs, f)(zs.protocols[i]) <==> Checker.ProtocolPossible(s, zs, text, f);
    }
    if Any(zs.protocols, Checker.PossibleFor(s, zs, f)) {
      var i :| 0 <= i < |zs.protocols| && Checker.PossibleFor(s, zs, f)(zs.protocols[i]);
      assert ProtocolOf(zs.protocols[i]) == proto;
    }
  }

  /** Why protocols must be spelled exactly: a covered flow is possible to the checker only if they are. */
  lemma {:induction false} SpellingDecides(s: Section, zs: ZapretStrategy, proto: Protocol, port: int, f: Checker.Flow)
    requires (proto.Tcp? || proto.Udp?) && f.protocol == Some(proto) && f.port == port && 1 <= port <= 65535
    requires Narrow(s, zs, proto).Some? && Admits(Narrow(s, zs, proto).value, port)
    ensures Any(zs.protocols, Checker.PossibleFor(s, zs, f)) <==> Any(zs.protocols, Spells(proto))
  {
    hide Intersection, Admits, TrimSpace, Lower, ProtocolEnabled, ProtocolOf;
    PortScope(zs.PortsFor(proto), s.destinationPorts, port);
    forall i | 0 <= i < |zs.protocols|
      ensures Checker.PossibleFor(s, zs, f)(zs.protocols[i]) <==> Spells(proto)(zs.protocols[i])
    {
    }
  }

  function Spells(proto: Protocol): string -> bool { text => ProtocolOf(text) == proto }

  lemma {:induction false} PortScope(ports: string, section: string, port: int)
    requires 1 <= port <= 65535
    ensures Checker.PortPossible(ports, section, port) <==>
            Intersection(ports, section).1 && Admits(Intersection(ports, section).0, port)
  {
    hide Intersection, Admits;
    IntersectionValid(ports, section);
    if Intersection(ports, section).1 {
      PortProbe(Intersection(ports, section).0, port);
    }
  }

  lemma {:induction false} StrategyAgrees(c: Config, s: Section, name: string, pkt: Packet, f: Checker.Flow)
    requires Accepted(c) && Describes(f, pkt)
    ensures Checker.StrategyPossible(c, s, name, f) <==> StrategyCovers(c, s, name, pkt.proto, pkt.dport)
  {
    hide Admits, Narrow, PlainlySpelled, StrategyFrom, Checker.PossibleFor;
    var zs := c.ZapretStrategyByName(name);
    LookupSpelled(c.zapretStrategies, name, 0);
    if zs.Some? {
      PossibleWhenCovered(s, zs.value, pkt.proto, pkt.dport, f);
    }
  }

  /** The claim of a zapret section is what the checker calls possible. */
  lemma {:induction false} ClaimAgrees(c: Config, s: Section, pkt: Packet, f: Checker.Flow)
    requires Accepted(c) && Describes(f, pkt)
    ensures Any(s.zapretStrategies, Checker.Possible(c, s, f)) <==> Claims(c, s, pkt)
  {
    hide Checker.StrategyPossible, StrategyCovers, Accepted;
    var names := s.zapretStrategies;
    forall i | 0 <= i < |names|
      ensures Checker.Possible(c, s, f)(names[i]) <==> Covers(c, s, pkt.proto, pkt.dport)(names[i])
    {
      StrategyAgrees(c, s, names[i], pkt, f);
    }
  }

  /** The checker's plain match is a queue rule for that device; its "direct" is a claim without one. */
  lemma {:induction false} MatchIsQueued(c: Config, s: Section, pkt: Packet, f: Checker.Flow)
    requires Accepted(c) && Describes(f, pkt) && s.action.Zapret? && ValidateMatch(s)
    ensures Checker.Scope(c, s, f).Matched? <==> Queued(c, s, pkt.proto, pkt.dport, Some(f.wan))
    ensures Checker.Scope(c, s, f).Skip? <==> !Covered(c, s, pkt.proto, pkt.dport)
    ensures Checker.Scope(c, s, f).StaysDirect? <==>
            Covered(c, s, pkt.proto, pkt.dport) && !Queued(c, s, pkt.proto, pkt.dport, Some(f.wan))
  {
    hide Checker.StrategyPossible, StrategyCovers, Accepted, Intersection, Admits, ProfileTakes;
    var names := s.zapretStrategies;
    ClaimAgrees(c, s, pkt, f);
    forall i | 0 <= i < |names|
      ensures Checker.PossibleOnWan(c, s, f)(names[i]) <==> Queueing(c, s, pkt.proto, pkt.dport, Some(f.wan))(names[i])
    {
      StrategyAgrees(c, s, names[i], pkt, f);
    }
    PortProbe(s.destinationPorts, pkt.dport);
    if Any(names, Queueing(c, s, pkt.proto, pkt.dport, Some(f.wan))) {
      var i :| 0 <= i < |names| && Queueing(c, s, pkt.proto, pkt.dport, Some(f.wan))(names[i]);
      assert Covers(c, s, pkt.proto, pkt.dport)(names[i]);
    }
    if Covered(c, s, pkt.proto, pkt.dport) {
      CoveredIsAdmitted(c, s, pkt.proto, pkt.dport);
    }
  }

  /** What a zapret section covers is inside its own restriction. */
  lemma {:induction false} CoveredIsAdmitted(c: Config, s: Section, proto: Protocol, port: int)
    requires Covered(c, s, proto, port)
    ensures s.MatchesProtocol(proto) && Admits(s.destinationPorts, port)
  {
    hide Intersection, Admits, ProtocolEnabled, StrategyFrom;
    var i :| 0 <= i < |s.zapretStrategies| && Covers(c, s, proto, port)(s.zapretStrategies[i]);
    var zs := c.ZapretStrategyByName(s.zapretStrategies[i]).value;
    IntersectionValid(zs.PortsFor(proto), s.destinationPorts);
    IntersectionMeets(zs.PortsFor(proto), s.destinationPorts);
  }

  // ----- one section -----

  /** What the checker's verdict on a section means for the packet. */
  function VerdictFor(c: Config, s: Section, status: Checker.Status): Option<Hit> {
    match Checker.ActionFor(s, status)
    case By(a) => Some(Hit(if a.Proxy? then TProxy(s.tproxyPort) else if a.Reject? then Refuse else Pass, Of(s)))
    case _ => None
  }

  lemma {:induction false} QuicPort(p: int)
    ensures Admits("443", p) <==> p == 443
    ensures "443" == Itoa(443)
  {
    assert Itoa(443) == "443" by {
      assert Itoa(4) == "4";
      assert Itoa(44) == "44";
    }
    SinglePortNamed(443);
  }

  lemma {:induction false} SectionPortsAdmit(s: Section, p: int)
    requires ValidateMatch(s) && s.Scoped()
    ensures Admits(SectionPorts(s), p) <==> Admits(s.destinationPorts, p)
  {
    hide Admits;
    NormalizationKeepsPorts(s.destinationPorts);
  }

  /** A section's rules do with the packet what the checker foretells. */
  predicate SectionForetold(c: Config, s: Section, pkt: Packet, f: Checker.Flow) {
    SectionAction(c, s, pkt) ==
      if Checker.Scope(c, s, f).Skip? then None else VerdictFor(c, s, Checker.Scope(c, s, f))
  }

  lemma {:induction false} SectionAgrees(c: Config, s: Section, pkt: Packet, f: Checker.Flow)
    requires Accepted(c) && ValidateMatch(s) && Describes(f, pkt)
    ensures SectionForetold(c, s, pkt, f)
  {
    match s.action {
      case Proxy => ProxyAgrees(c, s, pkt, f);
      case Zapret => ZapretAgrees(c, s, pkt, f);
      case _ =>
    }
  }

  /** The strategy covers the pair and spells the protocol as the checker reads it. */
  function CoversAsSpelled(c: Config, s: Section, proto: Protocol, port: int): string -> bool {
    name => StrategyCovers(c, s, name, proto, port)
            && c.ZapretStrategyByName(name).Some? && Any(c.ZapretStrategyByName(name).value.protocols, Spells(proto))
  }

  /** To the checker a strategy is possible if it covers the pair and spells the protocol as the checker reads it. */
  lemma {:induction false} PossibleAsSpelled(c: Config, s: Section, name: string, pkt: Packet, f: Checker.Flow)
    requires Describes(f, pkt)
    ensures Checker.StrategyPossible(c, s, name, f) <==> CoversAsSpelled(c, s, pkt.proto, pkt.dport)(name)
  {
    hide Intersection, Admits, StrategyFrom, Narrow, Checker.PossibleFor;
    var found := c.ZapretStrategyByName(name);
    if found.Some? {
      if StrategyCovers(c, s, name, pkt.proto, pkt.dport) {
        SpellingDecides(s, found.value, pkt.proto, pkt.dport, f);
      } else {
        UncoveredIsImpossible(s, found.value, pkt.proto, pkt.dport, f);
      }
    }
  }

  lemma {:induction false} UncoveredIsImpossible(s: Section, zs: ZapretStrategy, proto: Protocol, port: int,
      f: Checker.Flow)
    requires (proto.Tcp? || proto.Udp?) && f.protocol == Some(proto) && f.port == port && 1 <= port <= 65535
    requires !(Narrow(s, zs, proto).Some? && Admits(Narrow(s, zs, proto).value, port))
    ensures !Any(zs.protocols, Checker.PossibleFor(s, zs, f))
  {
    hide Intersection, Admits, TrimSpace, Lower, ProtocolOf;
    PortScope(zs.PortsFor(proto), s.destinationPorts, port);
    forall i | 0 <= i < |zs.protocols| ensures !Checker.PossibleFor(s, zs, f)(zs.protocols[i]) {
      ExactIsEnabled(zs, i, proto);
    }
  }

  /** What is spelled exactly is enabled. */
  lemma {:induction false} ExactIsEnabled(zs: ZapretStrategy, i: nat, proto: Protocol)
    requires i < |zs.protocols| && (proto.Tcp? || proto.Udp?)
    ensures ProtocolOf(zs.protocols[i]) == proto ==> ProtocolEnabled(zs, proto)
  {
    PlainProtocols();
  }

  /**
    For every section whose match is valid, spelled as it may be: its rules do
    what the checker foretells of the flow exactly when no zapret strategy
    covers it or one that does spells the protocol as the checker reads it.
  */
  lemma {:induction false} SectionForetoldExactly(c: Config, s: Section, pkt: Packet, f: Checker.Flow)
    requires ValidateMatch(s) && Describes(f, pkt)
    ensures SectionForetold(c, s, pkt, f) <==>
              (s.action.Zapret? && Covered(c, s, pkt.proto, pkt.dport) ==>
                 Any(s.zapretStrategies, CoversAsSpelled(c, s, pkt.proto, pkt.dport)))
  {
    match s.action {
      case Proxy => ProxyAgrees(c, s, pkt, f);
      case Zapret => ZapretForetold(c, s, pkt, f);
      case _ =>
    }
  }

  lemma {:induction false} ZapretForetold(c: Config, s: Section, pkt: Packet, f: Checker.Flow)
    requires ValidateMatch(s) && Describes(f, pkt) && s.action.Zapret?
    ensures SectionForetold(c, s, pkt, f) <==>
              (Covered(c, s, pkt.proto, pkt.dport) ==>
                 Any(s.zapretStrategies, CoversAsSpelled(c, s, pkt.proto, pkt.dport)))
  {
    hide Checker.StrategyPossible, StrategyCovers, Intersection, Admits, ProfileTakes, CoversAsSpelled;
    var names, spelled := s.zapretStrategies, CoversAsSpelled(c, s, pkt.proto, pkt.dport);
    forall i | 0 <= i < |names| ensures Checker.Possible(c, s, f)(names[i]) <==> spelled(names[i]) {
      PossibleAsSpelled(c, s, names[i], pkt, f);
    }
    if Any(names, spelled) {
      var i :| 0 <= i < |names| && spelled(names[i]);
      SpelledIsCovered(c, s, names[i], pkt.proto, pkt.dport);
      assert Covers(c, s, pkt.proto, pkt.dport)(names[i]);
    }
    PortProbe(s.destinationPorts, pkt.dport);
    if Covered(c, s, pkt.proto, pkt.dport) { CoveredIsAdmitted(c, s, pkt.proto, pkt.dport); }
    FullStatus(c, s, pkt, f);
  }

  lemma {:induction false} SpelledIsCovered(c: Config, s: Section, name: string, proto: Protocol, port: int)
    ensures CoversAsSpelled(c, s, proto, port)(name) ==> StrategyCovers(c, s, name, proto, port)
  {
  }

  lemma {:induction false} ProxyAgrees(c: Config, s: Section, pkt: Packet, f: Checker.Flow)
    requires ValidateMatch(s) && s.action.Proxy? && Describes(f, pkt)
    ensures SectionForetold(c, s, pkt, f)
  {
    hide Admits, Intersection, SectionPorts;
    PortProbe(s.destinationPorts, pkt.dport);
    PortProbe(s.destinationPorts, 443);
    SectionPortsAdmit(s, pkt.dport);
    QuicPort(pkt.dport);
  }

  /** Why ports must be readable: where they are not, the chain drops the restriction and the checker the section. */
  lemma {:induction false} UnreadablePortsDiverge(c: Config, s: Section, pkt: Packet, f: Checker.Flow)
    requires Describes(f, pkt) && s.action.Proxy? && !Ports.Valid(s.destinationPorts)
    requires s.MatchesProtocol(pkt.proto) && !s.udpMode.TcpOnly?
    ensures SectionAction(c, s, pkt) == Some(Hit(TProxy(s.tproxyPort), Of(s))) && Checker.Scope(c, s, f).Skip?
  {
    hide Admits;
    EmptyAdmits();
    IntersectionValid(s.destinationPorts, "443");
    IntersectionValid(s.destinationPorts, Itoa(pkt.dport));
  }

  lemma {:induction false} ZapretAgrees(c: Config, s: Section, pkt: Packet, f: Checker.Flow)
    requires Accepted(c) && ValidateMatch(s) && s.action.Zapret? && Describes(f, pkt)
    ensures SectionForetold(c, s, pkt, f)
  {
    hide Checker.Scope, Covered, Accepted, ValidateMatch, Queued;
    MatchIsQueued(c, s, pkt, f);
    FullStatus(c, s, pkt, f);
  }

  lemma {:induction false} FullStatus(c: Config, s: Section, pkt: Packet, f: Checker.Flow)
    requires s.action.Zapret? && Describes(f, pkt)
    ensures var status := Checker.Scope(c, s, f); status.Skip? || status.Matched? || status.StaysDirect?
  {
    hide Intersection, Any, Checker.Possible, Checker.PossibleOnWan;
  }

  // ----- the sections in order -----

  /** A section that is off decides nothing. */
  function IfEnabled(c: Config, pkt: Packet): Section -> Option<Hit> {
    (s: Section) => if s.enabled then SectionHit(c, s, pkt) else None
  }

  lemma {:induction false} FirstHitFiltered(c: Config, ss: seq<Section>, pkt: Packet)
    ensures FirstHit(StableSort.Filter(ss, Enabled()), Destinations(c, pkt)) == FirstHit(ss, IfEnabled(c, pkt))
  {
    hide SectionHit;
    if ss != [] {
      var front, s := ss[..|ss| - 1], ss[|ss| - 1];
      FirstHitFiltered(c, front, pkt);
      if s.enabled {
        var kept := StableSort.Filter(front, Enabled());
        assert (kept + [s])[..|kept|] == kept;
      }
    }
  }

  /** Filtering before the sort, as the generator does, or after it, as the checker does. */
  lemma {:induction false} SameOrder(c: Config, pkt: Packet)
    ensures FirstHit(ByPriority(c.sections), Destinations(c, pkt)) ==
            FirstHit(StableSort.Sort(c.sections, PriorityKey()), IfEnabled(c, pkt))
  {
    StableSort.FilterCommutesWithSort(c.sections, PriorityKey(), Enabled());
    FirstHitFiltered(c, StableSort.Sort(c.sections, PriorityKey()), pkt);
  }

  /** The hit that a scan of the sections foretells. */
  function ScanHit(scan: Checker.Scan): Option<Hit> {
    match scan.chosen
    case None => None
    case Some(s) =>
      match scan.action
      case By(a) => Some(Hit(if a.Proxy? then TProxy(s.tproxyPort) else if a.Reject? then Refuse else Pass, Of(s)))
      case _ => None
  }

  lemma {:induction false} ScanAgrees(c: Config, ss: seq<Section>, pkt: Packet, f: Checker.Flow)
    requires Accepted(c) && Describes(f, pkt)
    requires forall i :: 0 <= i < |ss| ==> ss[i] in c.sections
    ensures var scan := Checker.ScanSections(c, ss, pkt.family, pkt.sets, f);
            && FirstHit(ss, IfEnabled(c, pkt)) == ScanHit(scan)
            && (scan.chosen.Some? ==> ScanHit(scan).Some?)
            && (scan.chosen.Some? ==> scan.chosen.value in ss)
  {
    hide Checker.Scope, SectionAction, Accepted, ValidateMatch;
    if ss != [] {
      var s := ss[|ss| - 1];
      ScanAgrees(c, ss[..|ss| - 1], pkt, f);
      assert ValidateMatch(s) by { MatchOf(c, s); }
      SectionAgrees(c, s, pkt, f);
      FullAnswer(c, s, pkt, f);
    }
  }

  lemma {:induction false} MatchOf(c: Config, s: Section)
    requires Accepted(c) && s in c.sections
    ensures ValidateMatch(s)
  {
  }

  lemma {:induction false} FullAnswer(c: Config, s: Section, pkt: Packet, f: Checker.Flow)
    requires Describes(f, pkt)
    ensures !Checker.Scope(c, s, f).Conditional?
  {
    hide Intersection, Any, Checker.Possible, Checker.PossibleOnWan;
  }

  // ----- the chain -----

  /** The nft sets that a configuration declares. */
  function BaseSets(c: Config, f: Family): set<string> {
    {SetOf("bypass", f), SetOf("proxy_server_bypass", f), SetOf("direct", f), SetOf("reject", f)}
    + set s | s in c.sections && s.Scoped() :: s.NFTSet(f)
  }

  function DeclaredSets(c: Config): set<string> {
    var bases := BaseSets(c, V4) + if c.IPv6Routed() then BaseSets(c, V6) else {};
    bases + set b | b in bases :: "dns_" + b
  }

  predicate EndsIn(name: string, ch: char) { name != "" && name[|name| - 1] == ch }

  lemma {:induction false} SuffixesDiffer(c: Config, f: Family, name: string)
    requires name in BaseSets(c, f)
    ensures EndsIn(name, if f.V4? then '4' else '6') && EndsIn("dns_" + name, if f.V4? then '4' else '6')
  {
  }

  /** Without IPv6 routing no destination is in an IPv6 set. */
  lemma {:induction false} NoSixSets(c: Config, pkt: Packet, base: string)
    requires pkt.sets <= DeclaredSets(c) && !c.IPv6Routed()
    ensures SetOf(base, V6) !in pkt.sets && "dns_" + SetOf(base, V6) !in pkt.sets
  {
    forall name | name in pkt.sets ensures EndsIn(name, '4') {
      if name in BaseSets(c, V4) {
        SuffixesDiffer(c, V4, name);
      } else {
        var b :| b in BaseSets(c, V4) && name == "dns_" + b;
        SuffixesDiffer(c, V4, b);
      }
    }
    assert EndsIn(SetOf(base, V6), '6') && EndsIn("dns_" + SetOf(base, V6), '6');
  }

  /** The first matching rule is what the classifier foretold. */
  predicate Foretold(c: Config, r: Checker.IPRoute, pkt: Packet, hit: Option<Hit>) {
    match r.action
    case Unclear => false
    case Bypassing => hit == Some(Hit(Pass, Bypass))
    case Default => hit == TailHit(c, pkt)
    case By(a) =>
      && hit.Some?
      && hit.value.verdict == (if !a.Proxy? then (if a.Reject? then Refuse else Pass)
                               else if hit.value.origin.Of? then TProxy(hit.value.origin.section.tproxyPort) else Mark)
      && (if hit.value.origin.Of? then
            && hit.value.origin.section in c.sections && hit.value.origin.section.enabled
            && hit.value.origin.section.name == r.section
          else
            && hit.value.origin.Global?
            && ((a.Reject? && r.section == "reject") || (a.Direct? && r.section == "direct")))
  }

  lemma {:induction false} SortMembers<T(!new)>(xs: seq<T>, key: T -> StableSort.Key)
    ensures forall x :: x in StableSort.Sort(xs, key) <==> x in xs
  {
    if xs != [] {
      SortMembers(xs[..|xs| - 1], key);
      StableSort.InsertMembers(StableSort.Sort(xs[..|xs| - 1], key), xs[|xs| - 1], key);
      assert xs == xs[..|xs| - 1] + [xs[|xs| - 1]];
    }
  }

  lemma {:induction false} ChosenEnabled(c: Config, ss: seq<Section>, family: Family, sets: set<string>,
      f: Checker.Flow)
    ensures var scan := Checker.ScanSections(c, ss, family, sets, f);
            (scan.chosen.Some? ==> scan.chosen.value.enabled) && (scan.chosen.None? ==> scan.action.Default?)
  {
    hide Checker.Scope;
    if ss != [] { ChosenEnabled(c, ss[..|ss| - 1], family, sets, f); }
  }

  /** The destination pass of the chain, foretold by the scan of the sections. */
  lemma {:induction false} SectionsForetold(c: Config, pkt: Packet, f: Checker.Flow)
    requires Accepted(c) && Describes(f, pkt)
    ensures var scan := Checker.ScanSections(c, StableSort.Sort(c.sections, Checker.Key()), pkt.family, pkt.sets, f);
            && FirstHit(ByPriority(c.sections), Destinations(c, pkt)) == ScanHit(scan)
            && (scan.chosen.Some? ==>
                  ScanHit(scan).Some? && scan.chosen.value in c.sections && scan.chosen.value.enabled)
            && (scan.chosen.None? ==> scan.action.Default?)
  {
    hide Accepted, Describes, FirstHit, ByPriority, ScanHit, Checker.ScanSections;
    SameOrder(c, pkt);
    SameKey(c.sections);
    var ss := StableSort.Sort(c.sections, PriorityKey());
    SortMembers(c.sections, PriorityKey());
    forall i | 0 <= i < |ss| ensures ss[i] in c.sections { assert ss[i] in ss; }
    ScanAgrees(c, ss, pkt, f);
    ChosenEnabled(c, ss, pkt.family, pkt.sets, f);
  }

  lemma {:induction false} SameKey(ss: seq<Section>)
    ensures StableSort.Sort(ss, Checker.Key()) == StableSort.Sort(ss, PriorityKey())
  {
    if ss != [] {
      SameKey(ss[..|ss| - 1]);
      SameInsert(StableSort.Sort(ss[..|ss| - 1], PriorityKey()), ss[|ss| - 1]);
    }
  }

  lemma {:induction false} SameInsert(ss: seq<Section>, s: Section)
    ensures StableSort.Insert(ss, s, Checker.Key()) == StableSort.Insert(ss, s, PriorityKey())
  {
    if ss != [] { SameInsert(ss[..|ss| - 1], s); }
  }

  /**
    The compiler against its checker: for a fully described flow that no guard
    and no client rule takes, the first matching rule of the prerouting chain is
    what the classifier foretells.
  */
  lemma {:induction false} ChainIsForetold(c: Config, pkt: Packet, f: Checker.Flow)
    requires Accepted(c) && Describes(f, pkt) && pkt.sets <= DeclaredSets(c)
    requires GuardHit(c, pkt).None? && ClientHit(c, pkt).None?
    ensures Foretold(c, Checker.Classify(c, Some(pkt.family), pkt.sets, f), pkt, Prerouting(c, pkt))
  {
    hide Accepted, Describes, FirstHit, ByPriority, Checker.ScanSections, DeclaredSets, TailHit, GuardHit,
        ClientHit, StableSort.Sort;
    SectionsForetold(c, pkt, f);
    if !c.Routes(pkt.family) {
      NoSixSets(c, pkt, "bypass");
      NoSixSets(c, pkt, "proxy_server_bypass");
      NoSixSets(c, pkt, "reject");
      NoSixSets(c, pkt, "direct");
    }
  }

  /** The same, of the rules the generator writes and the route the checker reports. */
  method CompileAndClassify(c: Config, pkt: Packet, f: Checker.Flow) returns (rules: seq<Rule>,
      route: Checker.IPRoute)
    requires Accepted(c) && Describes(f, pkt) && pkt.sets <= DeclaredSets(c)
    requires GuardHit(c, pkt).None? && ClientHit(c, pkt).None?
    ensures Foretold(c, route, pkt, FirstMatch(rules, pkt))
  {
    hide *;
    rules := NFTablesPrerouting(c);
    route := Checker.ClassifyIPFlow(c, Some(pkt.family), pkt.sets, f);
    ChainIsForetold(c, pkt, f);
  }

  // ----- the router's own packets -----

  /** A marked packet comes back through lo. */
  function Reentered(pkt: Packet): Packet { pkt.(fromLo := true, marked := true) }

  /** What prerouting makes of an output verdict. */
  function Returned(pkt: Packet, hit: Option<Hit>): Option<Hit> {
    if hit.Some? && hit.value.verdict.Mark? && hit.value.origin.Of? then
      var s := hit.value.origin.section;
      Some(Hit(if RefusesQuic(s) && IsQuic(pkt) then Refuse else TProxy(s.tproxyPort), Of(s)))
    else hit
  }

  predicate KnownAction(s: Section) { s.action.Proxy? || s.action.Zapret? || s.action.Direct? || s.action.Reject? }

  lemma {:induction false} QuicIsCarried(s: Section, pkt: Packet)
    requires s.action.Proxy? && RefusesQuic(s) && IsQuic(pkt)
    ensures Carries(s, pkt)
  {
    hide Admits, Intersection;
    QuicPort(pkt.dport);
    IntersectionValid(s.destinationPorts, "443");
    PortProbe(s.destinationPorts, 443);
    NormalizationKeepsPorts(s.destinationPorts);
  }

  lemma {:induction false} SectionReturns(c: Config, s: Section, pkt: Packet)
    requires KnownAction(s)
    requires !InEither(pkt, SetOf("reject", pkt.family)) && !InEither(pkt, SetOf("direct", pkt.family))
    ensures SectionHit(c, s, Reentered(pkt)) == Returned(pkt, OutputSectionHit(c, s, pkt))
  {
    hide Carries, RefusesQuic, IsQuic, Covered;
    SameToSections(s, pkt);
    if s.action.Proxy? && RefusesQuic(s) && IsQuic(pkt) {
      QuicIsCarried(s, pkt);
    }
  }

  lemma {:induction false} SameToSections(s: Section, pkt: Packet)
    ensures Carries(s, Reentered(pkt)) == Carries(s, pkt) && IsQuic(Reentered(pkt)) == IsQuic(pkt)
  {
    hide Admits;
  }

  lemma {:induction false} SectionsReturn(c: Config, ss: seq<Section>, pkt: Packet)
    requires forall i :: 0 <= i < |ss| ==> KnownAction(ss[i])
    requires !InEither(pkt, SetOf("reject", pkt.family)) && !InEither(pkt, SetOf("direct", pkt.family))
    ensures FirstHit(ss, Destinations(c, Reentered(pkt))) == Returned(pkt, FirstHit(ss, Outputs(c, pkt)))
  {
    hide SectionHit, OutputSectionHit, InEither, RefusesQuic, IsQuic, KnownAction;
    if ss != [] {
      SectionsReturn(c, ss[..|ss| - 1], pkt);
      SectionReturns(c, ss[|ss| - 1], pkt);
    }
  }

  ghost predicate KnownActions(c: Config) { forall s :: s in c.sections && s.enabled ==> KnownAction(s) }

  /** The prerouting loop-breakers let a re-injected packet through, and it meets the verdict that output foretold. */
  lemma {:induction false} OutputComesBack(c: Config, pkt: Packet)
    requires KnownActions(c) && OutputGuardHit(c, pkt).None? && BypassHit(c, pkt).None?
    requires !InEither(pkt, SetOf("reject", pkt.family)) && !InEither(pkt, SetOf("direct", pkt.family))
    requires ClientHit(c, Reentered(pkt)).None?
    ensures GuardHit(c, Reentered(pkt)).None?
    ensures Prerouting(c, Reentered(pkt)) == OrElse(Returned(pkt, Output(c, pkt)), TailHit(c, Reentered(pkt)))
  {
    hide ClientHit, TailHit, FirstHit, StableSort.Sort, StableSort.Filter, InEither, KnownAction, RefusesQuic, IsQuic;
    var ss := ByPriority(c.sections);
    OrderedAreEnabled(c);
    SectionsReturn(c, ss, pkt);
    SameSets(c, pkt);
  }

  lemma {:induction false} SameSets(c: Config, pkt: Packet)
    ensures BypassHit(c, Reentered(pkt)) == BypassHit(c, pkt)
    ensures forall name :: InEither(Reentered(pkt), name) == InEither(pkt, name)
  {
  }

  lemma {:induction false} OrderedAreEnabled(c: Config)
    ensures forall s :: s in ByPriority(c.sections) <==> s in c.sections && s.enabled
  {
    StableSort.FilterMembers(c.sections, Enabled());
    SortMembers(StableSort.Filter(c.sections, Enabled()), PriorityKey());
  }

  /** The section that marks a packet is the one that proxies it, or refuses its QUIC, when it comes back. */
  lemma {:induction false} MarkingSectionProxies(c: Config, pkt: Packet, s: Section)
    requires KnownActions(c) && OutputGuardHit(c, pkt).None? && BypassHit(c, pkt).None?
    requires !InEither(pkt, SetOf("reject", pkt.family)) && !InEither(pkt, SetOf("direct", pkt.family))
    requires ClientHit(c, Reentered(pkt)).None?
    ensures Output(c, pkt) == Some(Hit(Mark, Of(s))) <==>
            || Prerouting(c, Reentered(pkt)) == Some(Hit(TProxy(s.tproxyPort), Of(s)))
            || Prerouting(c, Reentered(pkt)) == Some(Hit(Refuse, Of(s)))
  {
    hide ClientHit, FirstHit, ByPriority, InEither, KnownActions, RefusesQuic, IsQuic, BypassHit, Prerouting;
    OutputComesBack(c, pkt);
    OutputNeverRefuses(c, ByPriority(c.sections), pkt);
  }

  /** Away from the reject sets, output only marks or passes. */
  lemma {:induction false} OutputNeverRefuses(c: Config, ss: seq<Section>, pkt: Packet)
    requires !InEither(pkt, SetOf("reject", pkt.family))
    ensures var hit := FirstHit(ss, Outputs(c, pkt));
            hit.Some? ==> (hit.value.verdict.Mark? || hit.value.verdict.Pass?) && hit.value.origin.Of?
  {
    hide Carries, Covered;
    if ss != [] { OutputNeverRefuses(c, ss[..|ss| - 1], pkt); }
  }
}
