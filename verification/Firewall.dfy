/**
  The packet filter the generator writes: a rule selects packets and gives a
  verdict, the first rule that matches decides. Every writer of a stretch of
  the chain is proved against what that stretch decides for a packet.
*/
module Firewall {
  import opened Text
  import opened Ports
  import opened Config
  import opened Zapret
  import StableSort

  /** What the rules can see of a packet; the sets are those its destination is in. */
  datatype Packet = Packet(
    family: Family,
    proto: Protocol,
    dport: int,
    sets: set<string>,
    destinations: set<string>,  // the listed networks its destination is in
    sources: set<string>,       // the listed networks its source is in
    mac: string,
    private: bool,              // a destination that is not public
    reply: bool,
    fromLo: bool,
    toLocal: bool,
    marked: bool,               // carries the routing mark
    exempt: bool)               // own, overlay, probe or re-injected traffic

  datatype Selector =
    | All
    | Reply
    | Exempt
    | LoopLocal
    | ToLocal
    | MarkedElsewhere
    | NotTcpUdp
    | Private(family: Family)
    | InSet(family: Family, name: string)
    | To(family: Family, nets: seq<string>)
    | From(family: Family, nets: seq<string>)
    | Mac(macs: seq<string>)
    | FamilyMac(family: Family, macs: seq<string>)
    | OfFamily(family: Family)

  datatype Layer4 = AnyLayer4 | Layer4(proto: Protocol, ports: string)

  datatype Verdict = Pass | Refuse | TProxy(port: int) | Mark

  datatype Origin = Guard | Bypass | Client(section: Section) | Global | Of(section: Section) | Tail

  datatype Rule = Rule(sel: Selector, l4: Layer4, verdict: Verdict, origin: Origin)

  datatype Hit = Hit(verdict: Verdict, origin: Origin)

  predicate Selects(sel: Selector, pkt: Packet) {
    match sel
    case All => true
    case Reply => pkt.reply
    case Exempt => pkt.exempt
    case LoopLocal => pkt.fromLo && pkt.toLocal
    case ToLocal => pkt.toLocal
    case MarkedElsewhere => !pkt.fromLo && pkt.marked
    case NotTcpUdp => !pkt.proto.Tcp? && !pkt.proto.Udp?
    case Private(f) => pkt.family == f && pkt.private
    case InSet(f, name) => pkt.family == f && name in pkt.sets
    case To(f, nets) => pkt.family == f && Meets(nets, pkt.destinations)
    case From(f, nets) => pkt.family == f && Meets(nets, pkt.sources)
    case Mac(macs) => pkt.mac in macs
    case FamilyMac(f, macs) => pkt.family == f && pkt.mac in macs
    case OfFamily(f) => pkt.family == f
  }

  predicate Meets(nets: seq<string>, at: set<string>) { exists n :: n in nets && n in at }

  /** A port list restricts its protocol; a blank one does not. */
  predicate Passes(l4: Layer4, pkt: Packet) {
    l4.Layer4? ==> pkt.proto == l4.proto && Admits(l4.ports, pkt.dport)
  }

  function RuleHit(r: Rule, pkt: Packet): Option<Hit> {
    if Selects(r.sel, pkt) && Passes(r.l4, pkt) then Some(Hit(r.verdict, r.origin)) else None
  }

  function OrElse<T>(a: Option<T>, b: Option<T>): Option<T> { if a.Some? then a else b }

  function When(b: bool, v: Verdict, o: Origin): Option<Hit> { if b then Some(Hit(v, o)) else None }

  /** The first rule that matches decides. */
  function FirstMatch(rules: seq<Rule>, pkt: Packet): Option<Hit> {
    if rules == [] then None
    else OrElse(FirstMatch(rules[..|rules| - 1], pkt), RuleHit(rules[|rules| - 1], pkt))
  }

  lemma {:induction false} MatchConcat(a: seq<Rule>, b: seq<Rule>, pkt: Packet)
    ensures FirstMatch(a + b, pkt) == OrElse(FirstMatch(a, pkt), FirstMatch(b, pkt))
  {
    hide RuleHit;
    if b == [] {
      assert a + b == a;
    } else {
      MatchConcat(a, b[..|b| - 1], pkt);
      assert (a + b)[..|a + b| - 1] == a + b[..|b| - 1];
    }
  }

  lemma {:induction false} MatchOne(r: Rule, pkt: Packet)
    ensures FirstMatch([r], pkt) == RuleHit(r, pkt)
  {
    hide RuleHit;
    assert [r][..0] == [];
  }

  /** Two stretches one after the other. */
  lemma {:induction false} Then(a: seq<Rule>, b: seq<Rule>)
    ensures forall pkt :: FirstMatch(a + b, pkt) == OrElse(FirstMatch(a, pkt), FirstMatch(b, pkt))
  {
    forall pkt ensures FirstMatch(a + b, pkt) == OrElse(FirstMatch(a, pkt), FirstMatch(b, pkt)) {
      MatchConcat(a, b, pkt);
    }
  }

  lemma {:induction false} One(r: Rule)
    ensures forall pkt :: FirstMatch([r], pkt) == RuleHit(r, pkt)
  {
    forall pkt ensures FirstMatch([r], pkt) == RuleHit(r, pkt) { MatchOne(r, pkt); }
  }

  /** Appends a rule when the condition holds. */
  method Append(rules: seq<Rule>, b: bool, r: Rule) returns (out: seq<Rule>)
    ensures forall pkt :: FirstMatch(out, pkt) ==
                          OrElse(FirstMatch(rules, pkt), if b then RuleHit(r, pkt) else None)
  {
    hide RuleHit;
    if b {
      Then(rules, [r]);
      One(r);
      out := rules + [r];
    } else {
      out := rules;
    }
  }

  // ----- sections in order -----

  function PriorityKey(): Section -> StableSort.Key { (s: Section) => (s.priority, 0) }

  function Enabled(): Section -> bool { (s: Section) => s.enabled }

  /** sectionsByPriority: the enabled sections, ascending, ties in configuration order. */
  function ByPriority(sections: seq<Section>): seq<Section> {
    StableSort.Sort(StableSort.Filter(sections, Enabled()), PriorityKey())
  }

  method SectionsByPriority(sections: seq<Section>) returns (out: seq<Section>)
    ensures out == ByPriority(sections)
  {
    out := [];
    for i := 0 to |sections|
      invariant out == StableSort.Filter(sections[..i], Enabled())
    {
      assert sections[..i + 1][..i] == sections[..i];
      if sections[i].enabled {
        out := out + [sections[i]];
      }
    }
    assert sections[..|sections|] == sections;
    out := StableSort.SliceStable(out, PriorityKey());
  }

  /** The first section, in order, that decides. */
  function FirstHit(ss: seq<Section>, f: Section -> Option<Hit>): Option<Hit> {
    if ss == [] then None else OrElse(FirstHit(ss[..|ss| - 1], f), f(ss[|ss| - 1]))
  }

  lemma {:induction false} FirstHitSnoc(ss: seq<Section>, i: nat, f: Section -> Option<Hit>)
    requires i < |ss|
    ensures FirstHit(ss[..i + 1], f) == OrElse(FirstHit(ss[..i], f), f(ss[i]))
  {
    assert ss[..i + 1][..i] == ss[..i];
  }

  // ----- what each stretch decides -----

  predicate InEither(pkt: Packet, name: string) { name in pkt.sets || "dns_" + name in pkt.sets }

  function SetOf(base: string, f: Family): string { base + if f.V4? then "4" else "6" }

  function GuardHit(c: Config, pkt: Packet): Option<Hit> {
    When(pkt.reply || (pkt.fromLo && pkt.toLocal) || (!pkt.fromLo && pkt.marked)
         || (c.Routes(pkt.family) && pkt.private),
         Pass, Guard)
  }

  predicate Bypassed(pkt: Packet) {
    InEither(pkt, SetOf("bypass", pkt.family)) || SetOf("proxy_server_bypass", pkt.family) in pkt.sets
  }

  function BypassHit(c: Config, pkt: Packet): Option<Hit> {
    When(c.Routes(pkt.family) && Bypassed(pkt), Pass, Bypass)
  }

  function ExcludedMacs(ds: seq<Device>): seq<string> {
    if ds == [] then []
    else
      var d := ds[|ds| - 1];
      ExcludedMacs(ds[..|ds| - 1]) + if d.enabled && d.exclude && d.mac != "" then [d.mac] else []
  }

  function SectionMacs(ds: seq<Device>, name: string): seq<string> {
    if ds == [] then []
    else
      var d := ds[|ds| - 1];
      SectionMacs(ds[..|ds| - 1], name) + if d.enabled && d.section == name && d.mac != "" then [d.mac] else []
  }

  function BypassSources(c: Config, f: Family): seq<string> { if f.V4? then c.bypassSource4 else c.bypassSource6 }

  /** Sources and devices taken out of the system altogether. */
  function ExcludedHit(c: Config, pkt: Packet): Option<Hit> {
    When((c.Routes(pkt.family) && Meets(BypassSources(c, pkt.family), pkt.sources))
         || pkt.mac in ExcludedMacs(c.devices),
         Pass, Bypass)
  }

  /** sectionPortExpr: an unreadable list does not restrict. */
  function SectionPorts(s: Section): string {
    if s.Scoped() && Normalized(s.destinationPorts).Ok? then Normalized(s.destinationPorts).value else ""
  }

  /** The section's proxy takes this protocol and port. */
  predicate Carries(s: Section, pkt: Packet) {
    && (pkt.proto.Tcp? || (pkt.proto.Udp? && !s.udpMode.TcpOnly?))
    && s.MatchesProtocol(pkt.proto)
    && Admits(SectionPorts(s), pkt.dport)
  }

  predicate RefusesQuic(s: Section) {
    s.udpMode.BlockQuic? && s.MatchesProtocol(Udp) && Intersection(s.destinationPorts, "443").1
  }

  predicate IsQuic(pkt: Packet) { pkt.proto.Udp? && Admits("443", pkt.dport) }

  /** A client assigned to a section, by device or by source network. */
  function ClientAction(s: Section, pkt: Packet, routed: bool): Option<Hit> {
    match s.action
    case Reject => Some(Hit(Refuse, Client(s)))
    case Direct => Some(Hit(Pass, Client(s)))
    case Proxy => When(routed && Carries(s, pkt), TProxy(s.tproxyPort), Client(s))
    case NoAction => When(routed && Carries(s, pkt), TProxy(s.tproxyPort), Client(s))
    case _ => None
  }

  function DeviceHit(c: Config, s: Section, pkt: Packet): Option<Hit> {
    if pkt.mac in SectionMacs(c.devices, s.name) then ClientAction(s, pkt, c.Routes(pkt.family)) else None
  }

  function SourceHit(c: Config, s: Section, pkt: Packet): Option<Hit> {
    if c.Routes(pkt.family) && Meets(s.Sources(pkt.family), pkt.sources) then ClientAction(s, pkt, true) else None
  }

  function GlobalHit(c: Config, pkt: Packet): Option<Hit> {
    OrElse(When(c.Routes(pkt.family) && InEither(pkt, SetOf("reject", pkt.family)), Refuse, Global),
           When(c.Routes(pkt.family) && InEither(pkt, SetOf("direct", pkt.family)), Pass, Global))
  }

  predicate Claims(c: Config, s: Section, pkt: Packet) {
    (pkt.proto.Tcp? || pkt.proto.Udp?) && Covered(c, s, pkt.proto, pkt.dport)
  }

  /** What a section does with a destination in its sets. */
  function SectionAction(c: Config, s: Section, pkt: Packet): Option<Hit> {
    match s.action
    case Reject => Some(Hit(Refuse, Of(s)))
    case Direct => Some(Hit(Pass, Of(s)))
    case Zapret => When(Claims(c, s, pkt), Pass, Of(s))
    case Proxy => OrElse(When(RefusesQuic(s) && IsQuic(pkt), Refuse, Of(s)),
                         When(Carries(s, pkt), TProxy(s.tproxyPort), Of(s)))
    case _ => None
  }

  predicate Reaches(c: Config, s: Section, pkt: Packet) {
    c.Routes(pkt.family) && InEither(pkt, s.NFTSet(pkt.family))
  }

  function SectionHit(c: Config, s: Section, pkt: Packet): Option<Hit> {
    if Reaches(c, s, pkt) then SectionAction(c, s, pkt) else None
  }

  /** DNS over TLS, QUIC and HTTP/3, and IPv6 when it must not leak. */
  function TailHit(c: Config, pkt: Packet): Option<Hit> {
    When((c.blockDoT && pkt.proto.Tcp? && Admits("853", pkt.dport))
         || (!c.IPv6Routed() && c.ipv6RejectWhenOff && pkt.family.V6?)
         || (c.blockDoQ && pkt.proto.Udp? && Admits("853", pkt.dport))
         || (c.blockDoH3 && c.Routes(pkt.family) && IsQuic(pkt)
             && Meets(if pkt.family.V4? then c.doH3Block4 else c.doH3Block6, pkt.destinations)),
         Refuse, Tail)
  }

  function Devices(c: Config, pkt: Packet): Section -> Option<Hit> { s => DeviceHit(c, s, pkt) }

  function Sources(c: Config, pkt: Packet): Section -> Option<Hit> { s => SourceHit(c, s, pkt) }

  function Destinations(c: Config, pkt: Packet): Section -> Option<Hit> { s => SectionHit(c, s, pkt) }

  /** Excluded clients, then every device assignment, then every source assignment. */
  function ClientHit(c: Config, pkt: Packet): Option<Hit> {
    var ss := ByPriority(c.sections);
    OrElse(ExcludedHit(c, pkt), OrElse(FirstHit(ss, Devices(c, pkt)), FirstHit(ss, Sources(c, pkt))))
  }

  function DestinationHit(c: Config, pkt: Packet): Option<Hit> {
    OrElse(GlobalHit(c, pkt), FirstHit(ByPriority(c.sections), Destinations(c, pkt)))
  }

  /** The whole prerouting chain. */
  function Prerouting(c: Config, pkt: Packet): Option<Hit> {
    OrElse(GuardHit(c, pkt),
    OrElse(BypassHit(c, pkt),
    OrElse(ClientHit(c, pkt),
    OrElse(DestinationHit(c, pkt), TailHit(c, pkt)))))
  }

  // ----- the writers -----

  function OnSet(f: Family, name: string, l4: Layer4, v: Verdict, o: Origin): Rule { Rule(InSet(f, name), l4, v, o) }

  /** One rule for each of the two sets of a name. */
  method SetRefRules(f: Family, name: string, l4: Layer4, v: Verdict, o: Origin) returns (rules: seq<Rule>)
    ensures forall pkt ::
              FirstMatch(rules, pkt) == When(pkt.family == f && InEither(pkt, name) && Passes(l4, pkt), v, o)
  {
    hide Passes;
    var refs := SetNames(name);
    rules := [];
    rules := Append(rules, true, OnSet(f, refs[0], l4, v, o));
    rules := Append(rules, true, OnSet(f, refs[1], l4, v, o));
  }

  /** The same for the sets of both families, as far as they are routed. */
  method FamilyRefRules(c: Config, name4: string, name6: string, l4: Layer4, v: Verdict, o: Origin)
    returns (rules: seq<Rule>)
    ensures forall pkt :: FirstMatch(rules, pkt) ==
              When(c.Routes(pkt.family) && InEither(pkt, if pkt.family.V4? then name4 else name6) && Passes(l4, pkt),
                   v, o)
  {
    hide Passes, InEither, FirstMatch;
    rules := SetRefRules(V4, name4, l4, v, o);
    if c.IPv6Routed() {
      var more := SetRefRules(V6, name6, l4, v, o);
      Then(rules, more);
      rules := rules + more;
    }
  }

  method GuardRules(c: Config) returns (rules: seq<Rule>)
    ensures forall pkt :: FirstMatch(rules, pkt) == GuardHit(c, pkt)
  {
    rules := [];
    rules := Append(rules, true, Rule(Reply, AnyLayer4, Pass, Guard));
    rules := Append(rules, true, Rule(LoopLocal, AnyLayer4, Pass, Guard));
    rules := Append(rules, true, Rule(MarkedElsewhere, AnyLayer4, Pass, Guard));
    rules := Append(rules, true, Rule(Private(V4), AnyLayer4, Pass, Guard));
    rules := Append(rules, c.IPv6Routed(), Rule(Private(V6), AnyLayer4, Pass, Guard));
  }

  method BypassRules(c: Config) returns (rules: seq<Rule>)
    ensures forall pkt :: FirstMatch(rules, pkt) == BypassHit(c, pkt)
  {
    hide FirstMatch;
    NoRules();
    rules := [];
    rules := Append(rules, true, OnSet(V4, "bypass4", AnyLayer4, Pass, Bypass));
    rules := Append(rules, c.IPv6Routed(), OnSet(V6, "bypass6", AnyLayer4, Pass, Bypass));
    rules := Append(rules, true, OnSet(V4, "dns_bypass4", AnyLayer4, Pass, Bypass));
    rules := Append(rules, c.IPv6Routed(), OnSet(V6, "dns_bypass6", AnyLayer4, Pass, Bypass));
    rules := Append(rules, true, OnSet(V4, "proxy_server_bypass4", AnyLayer4, Pass, Bypass));
    rules := Append(rules, c.IPv6Routed(), OnSet(V6, "proxy_server_bypass6", AnyLayer4, Pass, Bypass));
    BypassNames();
  }

  lemma {:induction false} BypassNames()
    ensures SetOf("bypass", V4) == "bypass4" && SetOf("bypass", V6) == "bypass6"
    ensures "dns_" + "bypass4" == "dns_bypass4" && "dns_" + "bypass6" == "dns_bypass6"
    ensures SetOf("proxy_server_bypass", V4) == "proxy_server_bypass4"
    ensures SetOf("proxy_server_bypass", V6) == "proxy_server_bypass6"
  {
  }

  method ExcludedDeviceMacs(ds: seq<Device>) returns (macs: seq<string>)
    ensures macs == ExcludedMacs(ds)
  {
    macs := [];
    for i := 0 to |ds|
      invariant macs == ExcludedMacs(ds[..i])
    {
      assert ds[..i + 1][..i] == ds[..i];
      if ds[i].enabled && ds[i].exclude && ds[i].mac != "" {
        macs := macs + [ds[i].mac];
      }
    }
    assert ds[..|ds|] == ds;
  }

  method SectionDeviceMacs(ds: seq<Device>, name: string) returns (macs: seq<string>)
    ensures macs == SectionMacs(ds, name)
  {
    macs := [];
    for i := 0 to |ds|
      invariant macs == SectionMacs(ds[..i], name)
    {
      assert ds[..i + 1][..i] == ds[..i];
      if ds[i].enabled && ds[i].section == name && ds[i].mac != "" {
        macs := macs + [ds[i].mac];
      }
    }
    assert ds[..|ds|] == ds;
  }

  /** writeSourceBypassRules and writeExcludedDeviceRules. */
  method WriteExclusionRules(c: Config) returns (rules: seq<Rule>)
    ensures forall pkt :: FirstMatch(rules, pkt) == ExcludedHit(c, pkt)
  {
    hide FirstMatch, Meets;
    NoNets();
    rules := [];
    rules := Append(rules, c.bypassSource4 != [], Rule(From(V4, c.bypassSource4), AnyLayer4, Pass, Bypass));
    rules := Append(rules, c.IPv6Routed() && c.bypassSource6 != [],
        Rule(From(V6, c.bypassSource6), AnyLayer4, Pass, Bypass));
    var macs := ExcludedDeviceMacs(c.devices);
    rules := Append(rules, macs != [], Rule(Mac(macs), AnyLayer4, Pass, Bypass));
    NoRules();
  }

  lemma {:induction false} NoRules()
    ensures forall pkt :: FirstMatch([], pkt) == None
  {
  }

  /** The tcp and the udp rule of a proxy section behind one selector. */
  method ProxyPair(s: Section, sel: Selector, o: Origin, v: Verdict) returns (rules: seq<Rule>)
    ensures forall pkt :: FirstMatch(rules, pkt) == When(Selects(sel, pkt) && Carries(s, pkt), v, o)
  {
    hide FirstMatch, Admits, Selects, SectionPorts;
    NoRules();
    rules := [];
    rules := Append(rules, s.MatchesProtocol(Tcp), Rule(sel, Layer4(Tcp, SectionPorts(s)), v, o));
    rules := Append(rules, !s.udpMode.TcpOnly? && s.MatchesProtocol(Udp),
        Rule(sel, Layer4(Udp, SectionPorts(s)), v, o));
  }

  /** writeSectionDeviceRules. */
  method WriteSectionDeviceRules(c: Config, s: Section) returns (rules: seq<Rule>)
    ensures forall pkt :: FirstMatch(rules, pkt) == DeviceHit(c, s, pkt)
  {
    hide FirstMatch, Carries, SectionMacs;
    NoRules();
    var macs := SectionDeviceMacs(c.devices, s.name);
    if macs == [] {
      return [];
    }
    var sel := Mac(macs);
    match s.action {
      case Reject => One(Rule(sel, AnyLayer4, Refuse, Client(s))); rules := [Rule(sel, AnyLayer4, Refuse, Client(s))];
      case Direct => One(Rule(sel, AnyLayer4, Pass, Client(s))); rules := [Rule(sel, AnyLayer4, Pass, Client(s))];
      case Proxy => rules := DeviceProxyRules(c, s, macs);
      case NoAction => rules := DeviceProxyRules(c, s, macs);
      case _ => rules := [];
    }
  }

  method DeviceProxyRules(c: Config, s: Section, macs: seq<string>) returns (rules: seq<Rule>)
    ensures forall pkt :: FirstMatch(rules, pkt) ==
              When(pkt.mac in macs && c.Routes(pkt.family) && Carries(s, pkt), TProxy(s.tproxyPort), Client(s))
  {
    hide FirstMatch, Carries;
    rules := ProxyPair(s, FamilyMac(V4, macs), Client(s), TProxy(s.tproxyPort));
    if c.IPv6Routed() {
      var more := ProxyPair(s, FamilyMac(V6, macs), Client(s), TProxy(s.tproxyPort));
      Then(rules, more);
      rules := rules + more;
    }
  }

  /** writeSectionSourceRules. */
  method WriteSectionSourceRules(c: Config, s: Section) returns (rules: seq<Rule>)
    ensures forall pkt :: FirstMatch(rules, pkt) == SourceHit(c, s, pkt)
  {
    hide FirstMatch, Carries;
    NoRules();
    NoNets();
    rules := [];
    if s.source4 != [] {
      rules := SourceFamilyRules(s, V4);
    }
    if c.IPv6Routed() && s.source6 != [] {
      var more := SourceFamilyRules(s, V6);
      Then(rules, more);
      rules := rules + more;
    }
  }

  method SourceFamilyRules(s: Section, f: Family) returns (rules: seq<Rule>)
    ensures forall pkt :: FirstMatch(rules, pkt) ==
              if pkt.family == f && Meets(s.Sources(f), pkt.sources) then ClientAction(s, pkt, true) else None
  {
    hide FirstMatch, Carries, Meets;
    NoRules();
    var sel := From(f, s.Sources(f));
    match s.action {
      case Reject => One(Rule(sel, AnyLayer4, Refuse, Client(s))); rules := [Rule(sel, AnyLayer4, Refuse, Client(s))];
      case Direct => One(Rule(sel, AnyLayer4, Pass, Client(s))); rules := [Rule(sel, AnyLayer4, Pass, Client(s))];
      case Proxy => rules := ProxyPair(s, sel, Client(s), TProxy(s.tproxyPort));
      case NoAction => rules := ProxyPair(s, sel, Client(s), TProxy(s.tproxyPort));
      case _ => rules := [];
    }
  }

  method GlobalRules(c: Config) returns (rules: seq<Rule>)
    ensures forall pkt :: FirstMatch(rules, pkt) == GlobalHit(c, pkt)
  {
    hide FirstMatch, InEither;
    var refuse := FamilyRefRules(c, SetOf("reject", V4), SetOf("reject", V6), AnyLayer4, Refuse, Global);
    var pass := FamilyRefRules(c, SetOf("direct", V4), SetOf("direct", V6), AnyLayer4, Pass, Global);
    Then(refuse, pass);
    rules := refuse + pass;
  }

  /** writeZapretClaimReturns: for each set, the claimed ports of each protocol. */
  method WriteZapretClaimReturns(c: Config, s: Section) returns (rules: seq<Rule>)
    ensures forall pkt :: FirstMatch(rules, pkt) == When(Reaches(c, s, pkt) && Claims(c, s, pkt), Pass, Of(s))
  {
    hide FirstMatch, Covered, InEither, Admits, Section.NFTSet;
    var claims := ZapretSectionPortClaims(c, s);
    NoRules();
    if claims == map[] {
      return [];
    }
    rules := ClaimFamily(c, s, V4, claims);
    if c.IPv6Routed() {
      var more := ClaimFamily(c, s, V6, claims);
      Then(rules, more);
      rules := rules + more;
    }
  }

  ghost predicate ClaimsOf(c: Config, s: Section, claims: map<Protocol, PortClaim>) {
    && (forall q :: q in claims && claims[q].all ==> claims[q].ports == "")
    && forall q: Protocol, p :: (q.Tcp? || q.Udp?) ==> (ClaimAdmits(claims, q, p) <==> Covered(c, s, q, p))
  }

  method ClaimFamily(c: Config, s: Section, f: Family, claims: map<Protocol, PortClaim>) returns (rules: seq<Rule>)
    requires ClaimsOf(c, s, claims)
    ensures forall pkt :: FirstMatch(rules, pkt) ==
                          When(pkt.family == f && InEither(pkt, s.NFTSet(f)) && Claims(c, s, pkt), Pass, Of(s))
  {
    hide FirstMatch, ClaimsOf, Claims, Section.NFTSet;
    var refs := s.SetRefs(f);
    rules := ClaimSet(c, s, f, refs[0], claims);
    var more := ClaimSet(c, s, f, refs[1], claims);
    Then(rules, more);
    rules := rules + more;
  }

  method ClaimSet(c: Config, s: Section, f: Family, name: string, claims: map<Protocol,
      PortClaim>) returns (rules: seq<Rule>)
    requires ClaimsOf(c, s, claims)
    ensures forall pkt ::
              FirstMatch(rules, pkt) == When(pkt.family == f && name in pkt.sets && Claims(c, s, pkt), Pass, Of(s))
  {
    hide FirstMatch, Admits, Covered;
    NoRules();
    rules := [];
    if Tcp in claims {
      rules := Append(rules, true, OnSet(f, name, Layer4(Tcp, claims[Tcp].ports), Pass, Of(s)));
    }
    if Udp in claims {
      rules := Append(rules, true, OnSet(f, name, Layer4(Udp, claims[Udp].ports), Pass, Of(s)));
    }
    EmptyAdmits();
  }

  lemma {:induction false} EmptyAdmits()
    ensures forall p :: Admits("", p)
  {
    assert Blank("");
  }

  /** The destination rules of one section. */
  method WriteSectionRules(c: Config, s: Section) returns (rules: seq<Rule>)
    ensures forall pkt :: FirstMatch(rules, pkt) == SectionHit(c, s, pkt)
  {
    hide FirstMatch, InEither, Claims, Carries, Section.NFTSet, Admits, RefusesQuic;
    NoRules();
    match s.action {
      case Reject => rules := FamilyRefRules(c, s.NFTSet(V4), s.NFTSet(V6), AnyLayer4, Refuse, Of(s));
      case Direct => rules := FamilyRefRules(c, s.NFTSet(V4), s.NFTSet(V6), AnyLayer4, Pass, Of(s));
      case Zapret => rules := WriteZapretClaimReturns(c, s);
      case Proxy =>
        rules := [];
        if RefusesQuic(s) {
          rules := FamilyRefRules(c, s.NFTSet(V4), s.NFTSet(V6), Layer4(Udp, "443"), Refuse, Of(s));
        }
        var more := ProxySets(c, s, TProxy(s.tproxyPort));
        Then(rules, more);
        rules := rules + more;
      case _ => rules := [];
    }
  }

  /** For each set of each routed family, the proxied protocols. */
  method ProxySets(c: Config, s: Section, v: Verdict) returns (rules: seq<Rule>)
    ensures forall pkt :: FirstMatch(rules, pkt) == When(Reaches(c, s, pkt) && Carries(s, pkt), v, Of(s))
  {
    hide FirstMatch, InEither, Carries, Section.NFTSet;
    rules := ProxyFamily(s, V4, v);
    if c.IPv6Routed() {
      var more := ProxyFamily(s, V6, v);
      Then(rules, more);
      rules := rules + more;
    }
  }

  method ProxyFamily(s: Section, f: Family, v: Verdict) returns (rules: seq<Rule>)
    ensures forall pkt ::
              FirstMatch(rules, pkt) == When(pkt.family == f && InEither(pkt, s.NFTSet(f)) && Carries(s, pkt), v, Of(s))
  {
    hide FirstMatch, Carries, Section.NFTSet;
    var refs := s.SetRefs(f);
    rules := ProxyPair(s, InSet(f, refs[0]), Of(s), v);
    var more := ProxyPair(s, InSet(f, refs[1]), Of(s), v);
    Then(rules, more);
    rules := rules + more;
  }

  method TailRules(c: Config) returns (rules: seq<Rule>)
    ensures forall pkt :: FirstMatch(rules, pkt) == TailHit(c, pkt)
  {
    hide FirstMatch, Admits, Meets;
    NoRules();
    rules := [];
    rules := Append(rules, c.blockDoT, Rule(All, Layer4(Tcp, "853"), Refuse, Tail));
    rules := Append(rules, !c.IPv6Routed() && c.ipv6RejectWhenOff, Rule(OfFamily(V6), AnyLayer4, Refuse, Tail));
    rules := Append(rules, c.blockDoQ, Rule(All, Layer4(Udp, "853"), Refuse, Tail));
    if c.blockDoH3 {
      NoNets();
      rules := Append(rules, c.doH3Block4 != [], Rule(To(V4, c.doH3Block4), Layer4(Udp, "443"), Refuse, Tail));
      rules := Append(rules, c.IPv6Routed() && c.doH3Block6 != [],
          Rule(To(V6, c.doH3Block6), Layer4(Udp, "443"), Refuse, Tail));
    }
  }

  lemma {:induction false} NoNets()
    ensures forall at :: !Meets([], at)
  {
  }

  method DevicePass(c: Config, ss: seq<Section>) returns (rules: seq<Rule>)
    ensures forall pkt :: FirstMatch(rules, pkt) == FirstHit(ss, Devices(c, pkt))
  {
    hide DeviceHit;
    rules := [];
    for i := 0 to |ss|
      invariant forall pkt :: FirstMatch(rules, pkt) == FirstHit(ss[..i], Devices(c, pkt))
    {
      var more := WriteSectionDeviceRules(c, ss[i]);
      Then(rules, more);
      forall pkt ensures FirstMatch(rules + more, pkt) == FirstHit(ss[..i + 1], Devices(c, pkt)) {
        FirstHitSnoc(ss, i, Devices(c, pkt));
      }
      rules := rules + more;
    }
    assert ss[..|ss|] == ss;
  }

  method SourcePass(c: Config, ss: seq<Section>) returns (rules: seq<Rule>)
    ensures forall pkt :: FirstMatch(rules, pkt) == FirstHit(ss, Sources(c, pkt))
  {
    hide SourceHit;
    rules := [];
    for i := 0 to |ss|
      invariant forall pkt :: FirstMatch(rules, pkt) == FirstHit(ss[..i], Sources(c, pkt))
    {
      var more := WriteSectionSourceRules(c, ss[i]);
      Then(rules, more);
      forall pkt ensures FirstMatch(rules + more, pkt) == FirstHit(ss[..i + 1], Sources(c, pkt)) {
        FirstHitSnoc(ss, i, Sources(c, pkt));
      }
      rules := rules + more;
    }
    assert ss[..|ss|] == ss;
  }

  method DestinationPass(c: Config, ss: seq<Section>) returns (rules: seq<Rule>)
    ensures forall pkt :: FirstMatch(rules, pkt) == FirstHit(ss, Destinations(c, pkt))
  {
    hide SectionHit;
    rules := [];
    for i := 0 to |ss|
      invariant forall pkt :: FirstMatch(rules, pkt) == FirstHit(ss[..i], Destinations(c, pkt))
    {
      var more := WriteSectionRules(c, ss[i]);
      Then(rules, more);
      forall pkt ensures FirstMatch(rules + more, pkt) == FirstHit(ss[..i + 1], Destinations(c, pkt)) {
        FirstHitSnoc(ss, i, Destinations(c, pkt));
      }
      rules := rules + more;
    }
    assert ss[..|ss|] == ss;
  }

  method ClientRules(c: Config, ss: seq<Section>) returns (rules: seq<Rule>)
    requires ss == ByPriority(c.sections)
    ensures forall pkt :: FirstMatch(rules, pkt) == ClientHit(c, pkt)
  {
    hide FirstMatch, ExcludedHit, FirstHit, ByPriority;
    var excluded := WriteExclusionRules(c);
    var devices := DevicePass(c, ss);
    var sources := SourcePass(c, ss);
    Then(excluded, devices + sources);
    Then(devices, sources);
    rules := excluded + (devices + sources);
  }

  /** The prerouting chain of NFTablesWithNative, without native expressions. */
  method NFTablesPrerouting(c: Config) returns (rules: seq<Rule>)
    ensures forall pkt :: FirstMatch(rules, pkt) == Prerouting(c, pkt)
  {
    hide FirstMatch, GuardHit, BypassHit, ClientHit, GlobalHit, FirstHit, TailHit, ByPriority;
    var guards := GuardRules(c);
    var bypass := BypassRules(c);
    var ordered := SectionsByPriority(c.sections);
    var clients := ClientRules(c, ordered);
    var globals := GlobalRules(c);
    var sections := DestinationPass(c, ordered);
    var tail := TailRules(c);
    Then(globals, sections);
    var destinations := globals + sections;
    Then(destinations, tail);
    Then(clients, destinations + tail);
    Then(bypass, clients + (destinations + tail));
    Then(guards, bypass + (clients + (destinations + tail)));
    rules := guards + (bypass + (clients + (destinations + tail)));
  }

  // ----- the output chain -----

  function OutputGuardHit(c: Config, pkt: Packet): Option<Hit> {
    When(pkt.exempt || pkt.toLocal || pkt.reply || (!pkt.proto.Tcp? && !pkt.proto.Udp?)
         || (c.Routes(pkt.family) && pkt.private),
         Pass, Guard)
  }

  /** What a section does with the router's own packet: no QUIC refusal, and a mark instead of the proxy port. */
  function OutputAction(c: Config, s: Section, pkt: Packet): Option<Hit> {
    match s.action
    case Reject => Some(Hit(Refuse, Of(s)))
    case Direct => Some(Hit(Pass, Of(s)))
    case Zapret => When(Claims(c, s, pkt), Pass, Of(s))
    case Proxy => When(Carries(s, pkt), Mark, Of(s))
    case NoAction => When(Carries(s, pkt), Mark, Of(s))
    case _ => None
  }

  function OutputSectionHit(c: Config, s: Section, pkt: Packet): Option<Hit> {
    if Reaches(c, s, pkt) then OutputAction(c, s, pkt) else None
  }

  function Outputs(c: Config, pkt: Packet): Section -> Option<Hit> { s => OutputSectionHit(c, s, pkt) }

  function Output(c: Config, pkt: Packet): Option<Hit> {
    OrElse(OutputGuardHit(c, pkt), OrElse(BypassHit(c, pkt), FirstHit(ByPriority(c.sections), Outputs(c, pkt))))
  }

  method OutputGuardRules(c: Config) returns (rules: seq<Rule>)
    ensures forall pkt :: FirstMatch(rules, pkt) == OutputGuardHit(c, pkt)
  {
    hide FirstMatch;
    NoRules();
    rules := [];
    rules := Append(rules, true, Rule(Exempt, AnyLayer4, Pass, Guard));
    rules := Append(rules, true, Rule(ToLocal, AnyLayer4, Pass, Guard));
    rules := Append(rules, true, Rule(Reply, AnyLayer4, Pass, Guard));
    rules := Append(rules, true, Rule(NotTcpUdp, AnyLayer4, Pass, Guard));
    rules := Append(rules, true, Rule(Private(V4), AnyLayer4, Pass, Guard));
    rules := Append(rules, c.IPv6Routed(), Rule(Private(V6), AnyLayer4, Pass, Guard));
  }

  method WriteOutputSection(c: Config, s: Section) returns (rules: seq<Rule>)
    ensures forall pkt :: FirstMatch(rules, pkt) == OutputSectionHit(c, s, pkt)
  {
    hide FirstMatch, InEither, Claims, Carries, Section.NFTSet, Admits;
    NoRules();
    match s.action {
      case Reject => rules := FamilyRefRules(c, s.NFTSet(V4), s.NFTSet(V6), AnyLayer4, Refuse, Of(s));
      case Direct => rules := FamilyRefRules(c, s.NFTSet(V4), s.NFTSet(V6), AnyLayer4, Pass, Of(s));
      case Zapret => rules := WriteZapretClaimReturns(c, s);
      case Proxy => rules := ProxySets(c, s, Mark);
      case NoAction => rules := ProxySets(c, s, Mark);
      case _ => rules := [];
    }
  }

  /** writeOutputChain, without native expressions. */
  method WriteOutputChain(c: Config) returns (rules: seq<Rule>)
    ensures forall pkt :: FirstMatch(rules, pkt) == Output(c, pkt)
  {
    hide FirstMatch, OutputGuardHit, BypassHit, FirstHit, ByPriority;
    var guards := OutputGuardRules(c);
    var bypass := BypassRules(c);
    var ordered := SectionsByPriority(c.sections);
    var sections := OutputPass(c, ordered);
    Then(bypass, sections);
    Then(guards, bypass + sections);
    rules := guards + (bypass + sections);
  }

  method OutputPass(c: Config, ss: seq<Section>) returns (rules: seq<Rule>)
    ensures forall pkt :: FirstMatch(rules, pkt) == FirstHit(ss, Outputs(c, pkt))
  {
    hide OutputSectionHit;
    rules := [];
    for i := 0 to |ss|
      invariant forall pkt :: FirstMatch(rules, pkt) == FirstHit(ss[..i], Outputs(c, pkt))
    {
      var more := WriteOutputSection(c, ss[i]);
      Then(rules, more);
      forall pkt ensures FirstMatch(rules + more, pkt) == FirstHit(ss[..i + 1], Outputs(c, pkt)) {
        FirstHitSnoc(ss, i, Outputs(c, pkt));
      }
      rules := rules + more;
    }
    assert ss[..|ss|] == ss;
  }
}
