/**
  What the prerouting and output chains promise of a packet, layer by layer and
  in terms of the configuration and the packet alone: guards and bypasses, then
  the client's own section, then the destination's, then the tail.
*/
module Policy {
  import opened Text
  import opened Ports
  import opened Config
  import opened Zapret
  import opened Firewall
  import Routing
  import StableSort

  // ----- the first section that acts -----

  /** Section i comes no later than section j: by priority, then by place. */
  predicate Ahead(ss: seq<Section>, i: nat, j: nat)
    requires i < |ss| && j < |ss|
  {
    ss[i].priority < ss[j].priority || (ss[i].priority == ss[j].priority && i <= j)
  }

  predicate ActsAt(ss: seq<Section>, i: nat, acts: Section -> bool) {
    i < |ss| && ss[i].enabled && acts(ss[i])
  }

  /** Of the enabled sections that act, section i comes first. */
  ghost predicate Leads(ss: seq<Section>, i: nat, acts: Section -> bool) {
    ActsAt(ss, i, acts) && forall j: nat :: ActsAt(ss, j, acts) ==> Ahead(ss, i, j)
  }

  ghost predicate SomeActs(ss: seq<Section>, acts: Section -> bool) {
    exists i: nat :: ActsAt(ss, i, acts)
  }

  /** When some section acts, one of them comes first. */
  lemma {:induction false} SomeLeads(ss: seq<Section>, acts: Section -> bool) returns (i: nat)
    requires SomeActs(ss, acts)
    ensures Leads(ss, i, acts)
  {
    var n := |ss| - 1;
    var front := ss[..n];
    assert forall j: nat :: j < n ==> (ActsAt(ss, j, acts) <==> ActsAt(front, j, acts));
    if SomeActs(front, acts) {
      i := SomeLeads(front, acts);
      if ActsAt(ss, n, acts) && ss[n].priority < ss[i].priority { i := n; }
    } else {
      i := n;
    }
  }

  function Hits(f: Section -> Option<Hit>): Section -> bool { s => f(s).Some? }

  /** A section put in behind an earlier one that hits changes nothing. */
  lemma {:induction false} InsertBehind(ss: seq<Section>, s: Section, f: Section -> Option<Hit>)
    requires f(s).None? || exists y :: y in ss && f(y).Some? && y.priority <= s.priority
    ensures FirstHit(StableSort.Insert(ss, s, PriorityKey()), f) == FirstHit(ss, f)
  {
    var key := PriorityKey();
    if ss == [] || StableSort.Le(key(ss[|ss| - 1]), key(s)) {
      assert (ss + [s])[..|ss|] == ss;
      if f(s).Some? {
        var y :| y in ss && f(y).Some? && y.priority <= s.priority;
        MemberHits(ss, y, f);
      }
    } else {
      var front, last := ss[..|ss| - 1], ss[|ss| - 1];
      assert ss == front + [last];
      InsertBehind(front, s, f);
      var ins := StableSort.Insert(front, s, key);
      assert (ins + [last])[..|ins|] == ins;
    }
  }

  lemma {:induction false} MemberHits(ss: seq<Section>, y: Section, f: Section -> Option<Hit>)
    requires y in ss && f(y).Some?
    ensures FirstHit(ss, f).Some?
  {
    if y != ss[|ss| - 1] { MemberHits(ss[..|ss| - 1], y, f); }
  }

  lemma {:induction false} NobodyHits(ss: seq<Section>, f: Section -> Option<Hit>)
    requires forall y :: y in ss ==> f(y).None?
    ensures FirstHit(ss, f).None?
  {
    if ss != [] { NobodyHits(ss[..|ss| - 1], f); }
  }

  /** A section put in ahead of all that hit decides. */
  lemma {:induction false} InsertAhead(ss: seq<Section>, s: Section, f: Section -> Option<Hit>)
    requires StableSort.Ordered(ss, PriorityKey())
    requires f(s).Some? && forall y :: y in ss && f(y).Some? ==> s.priority < y.priority
    ensures FirstHit(StableSort.Insert(ss, s, PriorityKey()), f) == f(s)
  {
    var key := PriorityKey();
    if ss == [] || StableSort.Le(key(ss[|ss| - 1]), key(s)) {
      forall y | y in ss ensures f(y).None? {
        var i :| 0 <= i < |ss| && ss[i] == y;
        if i < |ss| - 1 { assert StableSort.Le(key(ss[i]), key(ss[|ss| - 1])); }
      }
      NobodyHits(ss, f);
      assert (ss + [s])[..|ss|] == ss;
    } else {
      var front, last := ss[..|ss| - 1], ss[|ss| - 1];
      InsertAhead(front, s, f);
      var ins := StableSort.Insert(front, s, key);
      assert (ins + [last])[..|ins|] == ins;
    }
  }

  /** Of the sections in chain order, the one that comes first among those that hit decides. */
  lemma {:induction false} LeaderDecides(ss: seq<Section>, i: nat, f: Section -> Option<Hit>)
    requires Leads(ss, i, Hits(f))
    ensures FirstHit(ByPriority(ss), f) == f(ss[i])
  {
    var acts := Hits(f);
    var n := |ss| - 1;
    var front, last := ss[..n], ss[n];
    var was := ByPriority(front);
    ByPrioritySnoc(ss);
    FrontOrdered(front);
    if i < n {
      assert ActsAt(front, i, acts);
      forall j: nat | ActsAt(front, j, Hits(f)) ensures Ahead(front, i, j) { assert ActsAt(ss, j, acts); }
      LeaderDecides(front, i, f);
      if last.enabled {
        if f(last).Some? {
          assert ActsAt(ss, n, acts);
          OrderedMember(front, front[i]);
        }
        InsertBehind(was, last, f);
      }
    } else {
      forall y | y in was && f(y).Some? ensures last.priority < y.priority {
        OrderedMember(front, y);
        var j: nat :| j < n && front[j] == y;
        assert ActsAt(ss, j, acts);
      }
      InsertAhead(was, last, f);
    }
  }

  lemma {:induction false} ByPrioritySnoc(ss: seq<Section>)
    requires ss != []
    ensures var n := |ss| - 1;
            ByPriority(ss) == if ss[n].enabled then StableSort.Insert(ByPriority(ss[..n]), ss[n], PriorityKey())
                              else ByPriority(ss[..n])
  {
    var kept := StableSort.Filter(ss[..|ss| - 1], Enabled());
    assert (kept + [ss[|ss| - 1]])[..|kept|] == kept;
  }

  lemma {:induction false} FrontOrdered(ss: seq<Section>)
    ensures StableSort.Ordered(ByPriority(ss), PriorityKey())
  {
    StableSort.SortOrdered(StableSort.Filter(ss, Enabled()), PriorityKey());
  }

  lemma {:induction false} OrderedMember(ss: seq<Section>, s: Section)
    ensures s in ByPriority(ss) <==> s in ss && s.enabled
  {
    StableSort.FilterMembers(ss, Enabled());
    Routing.SortMembers(StableSort.Filter(ss, Enabled()), PriorityKey());
  }

  lemma {:induction false} NobodyDecides(ss: seq<Section>, f: Section -> Option<Hit>)
    requires !SomeActs(ss, Hits(f))
    ensures FirstHit(ByPriority(ss), f).None?
  {
    forall y | y in ByPriority(ss) ensures f(y).None? {
      OrderedMember(ss, y);
      var j: nat :| j < |ss| && ss[j] == y;
      assert !ActsAt(ss, j, Hits(f));
    }
    NobodyHits(ByPriority(ss), f);
  }

  lemma {:induction false} SameLeads(ss: seq<Section>, a: Section -> bool, b: Section -> bool)
    requires forall s :: s in ss ==> a(s) == b(s)
    ensures forall i: nat :: ActsAt(ss, i, a) == ActsAt(ss, i, b)
    ensures forall i: nat :: Leads(ss, i, a) == Leads(ss, i, b)
    ensures SomeActs(ss, a) == SomeActs(ss, b)
  {
    forall i: nat ensures ActsAt(ss, i, a) == ActsAt(ss, i, b) {
      if i < |ss| { assert ss[i] in ss; }
    }
  }

  /** The first hit of a pass, told by what acts and what it then does. */
  ghost predicate Follows(ss: seq<Section>, acts: Section -> bool, does: Section -> Hit, hit: Option<Hit>) {
    if SomeActs(ss, acts) then forall i: nat :: Leads(ss, i, acts) ==> hit == Some(does(ss[i]))
    else hit.None?
  }

  lemma {:induction false} PassFollows(ss: seq<Section>, acts: Section -> bool, does: Section -> Hit,
      f: Section -> Option<Hit>)
    requires forall s :: s in ss ==> f(s) == if acts(s) then Some(does(s)) else None
    ensures Follows(ss, acts, does, FirstHit(ByPriority(ss), f))
    ensures SomeActs(ss, acts) <==> FirstHit(ByPriority(ss), f).Some?
  {
    hide ByPriority, FirstHit;
    SameLeads(ss, acts, Hits(f));
    if SomeActs(ss, acts) {
      var k := SomeLeads(ss, acts);
      forall i: nat | Leads(ss, i, acts) ensures FirstHit(ByPriority(ss), f) == Some(does(ss[i])) {
        LeaderDecides(ss, i, f);
        assert ss[i] in ss;
      }
    } else {
      NobodyDecides(ss, f);
    }
  }

  // ----- the layers of the prerouting chain, in terms of the configuration and the packet -----

  function Digit(f: Family): string { if f.V4? then "4" else "6" }

  /** The destination is in the named set of its family, the fixed one or the one that dnsmasq fills. */
  predicate Listed(pkt: Packet, name: string) {
    name + Digit(pkt.family) in pkt.sets || "dns_" + name + Digit(pkt.family) in pkt.sets
  }

  /** IPv6 is routed when it is on, or by itself on a router that has it and the memory for it. */
  predicate Routed(c: Config, f: Family) {
    f.V4? || c.ipv6Mode.On? || (c.ipv6Mode.Auto? && c.ipv6 && !c.lowResource)
  }

  /** A proxy or zapret section is restricted to its protocols, any other is not. */
  predicate Speaks(s: Section, proto: Protocol) {
    s.action.Proxy? || s.action.Zapret? ==>
      || s.matchProtocol.AnyProtocol?
      || (proto.Tcp? && (s.matchProtocol.OnlyTcp? || s.matchProtocol.TcpAndUdp?))
      || (proto.Udp? && (s.matchProtocol.OnlyUdp? || s.matchProtocol.TcpAndUdp?))
  }

  /** Replies, the router to itself, what is marked elsewhere, private destinations. */
  predicate Guarded(c: Config, pkt: Packet) {
    || pkt.reply || (pkt.fromLo && pkt.toLocal) || (!pkt.fromLo && pkt.marked)
    || (Routed(c, pkt.family) && pkt.private)
  }

  /** Destinations, source networks and devices that are out of the system. */
  predicate LetOut(c: Config, pkt: Packet) {
    || (Routed(c, pkt.family) && (Listed(pkt, "bypass") || "proxy_server_bypass" + Digit(pkt.family) in pkt.sets))
    || FromExcluded(c, pkt)
  }

  predicate FromExcluded(c: Config, pkt: Packet) {
    || (exists n :: n in (if pkt.family.V4? then c.bypassSource4 else c.bypassSource6) && n in pkt.sources
                    && Routed(c, pkt.family))
    || (exists d :: d in c.devices && d.enabled && d.exclude && d.mac == pkt.mac && d.mac != "")
  }

  /** Some enabled device of that section has the packet's MAC. */
  predicate Assigned(c: Config, s: Section, pkt: Packet) {
    exists d :: d in c.devices && d.enabled && d.section == s.name && d.mac == pkt.mac && d.mac != ""
  }

  /** Some network of the section holds the packet's source. */
  predicate Sourced(s: Section, pkt: Packet) {
    exists n :: n in (if pkt.family.V4? then s.source4 else s.source6) && n in pkt.sources
  }

  /** The section proxies the flow: its protocol, and its ports as far as they can be read. */
  predicate Takes(s: Section, pkt: Packet) {
    && (pkt.proto.Tcp? || (pkt.proto.Udp? && !s.udpMode.TcpOnly?))
    && Speaks(s, pkt.proto)
    && ((s.action.Proxy? || s.action.Zapret?) && Ports.Valid(s.destinationPorts) ==>
          Admits(s.destinationPorts, pkt.dport))
  }

  /** The section has a rule for a client of its own. */
  predicate ServesClient(c: Config, s: Section, pkt: Packet) {
    || s.action.Reject? || s.action.Direct?
    || ((s.action.Proxy? || s.action.NoAction?) && Routed(c, pkt.family) && Takes(s, pkt))
  }

  function ClientOutcome(s: Section): Hit {
    Hit(match s.action case Reject => Refuse case Direct => Pass case _ => TProxy(s.tproxyPort), Client(s))
  }

  function ByDevice(c: Config, pkt: Packet): Section -> bool { s => Assigned(c, s, pkt) && ServesClient(c, s, pkt) }

  function BySource(c: Config, pkt: Packet): Section -> bool {
    s => Routed(c, pkt.family) && Sourced(s, pkt) && ServesClient(c, s, pkt)
  }

  /** QUIC that the section refuses rather than proxies. */
  predicate RefusedQuic(s: Section, pkt: Packet) {
    && s.udpMode.BlockQuic? && pkt.proto.Udp? && pkt.dport == 443
    && Speaks(s, Udp) && Ports.Valid(s.destinationPorts) && Admits(s.destinationPorts, 443)
  }

  /** The strategy names the protocol, in whatever case, and both port lists can be read and let the port through. */
  predicate Lets(zs: ZapretStrategy, s: Section, proto: Protocol, port: int) {
    && (exists i :: 0 <= i < |zs.protocols| && Lower(TrimSpace(zs.protocols[i])) == if proto.Tcp? then "tcp" else "udp")
    && Speaks(s, proto)
    && Ports.Valid(if proto.Tcp? then zs.tcpPorts else zs.udpPorts) && Ports.Valid(s.destinationPorts)
    && Admits(if proto.Tcp? then zs.tcpPorts else zs.udpPorts, port) && Admits(s.destinationPorts, port)
  }

  /** Some strategy of the section is for the pair. */
  predicate Desynced(c: Config, s: Section, proto: Protocol, port: int) {
    exists k :: 0 <= k < |s.zapretStrategies| && LetsByName(c, s, s.zapretStrategies[k], proto, port)
  }

  predicate LetsByName(c: Config, s: Section, name: string, proto: Protocol, port: int) {
    c.ZapretStrategyByName(name).Some? && Lets(c.ZapretStrategyByName(name).value, s, proto, port)
  }

  /** The section's own set holds the destination, and it has a rule for the packet. */
  predicate ServesDestination(c: Config, s: Section, pkt: Packet) {
    match s.action
    case Reject => Listed(pkt, "reject")
    case Direct => Listed(pkt, "direct")
    case Zapret =>
      && Listed(pkt, "proxy_" + s.name)
      && (pkt.proto.Tcp? || pkt.proto.Udp?) && Desynced(c, s, pkt.proto, pkt.dport)
    case Proxy => Listed(pkt, "proxy_" + s.name) && (RefusedQuic(s, pkt) || Takes(s, pkt))
    case _ => false
  }

  function ByDestination(c: Config, pkt: Packet): Section -> bool {
    s => Routed(c, pkt.family) && ServesDestination(c, s, pkt)
  }

  function DestinationOutcome(pkt: Packet): Section -> Hit {
    (s: Section) => Hit(match s.action
             case Reject => Refuse
             case Proxy => if RefusedQuic(s, pkt) then Refuse else TProxy(s.tproxyPort)
             case _ => Pass,
             Of(s))
  }

  /**
    What is refused at the end: DNS over TLS and over QUIC, HTTP/3 to the listed
    resolvers, IPv6 that must not leak.
  */
  predicate RefusedLast(c: Config, pkt: Packet) {
    || (c.blockDoT && pkt.proto.Tcp? && pkt.dport == 853)
    || (c.blockDoQ && pkt.proto.Udp? && pkt.dport == 853)
    || (c.ipv6RejectWhenOff && pkt.family.V6? && !Routed(c, V6))
    || (c.blockDoH3 && Routed(c, pkt.family) && pkt.proto.Udp? && pkt.dport == 443
        && exists n :: n in (if pkt.family.V4? then c.doH3Block4 else c.doH3Block6) && n in pkt.destinations)
  }

  /** The verdict of the chain, layer by layer; no verdict is acceptance. */
  ghost predicate Obeys(c: Config, pkt: Packet, hit: Option<Hit>) {
    if Guarded(c, pkt) then hit == Some(Hit(Pass, Guard))
    else if LetOut(c, pkt) then hit == Some(Hit(Pass, Bypass))
    else if SomeActs(c.sections, ByDevice(c, pkt)) then Follows(c.sections, ByDevice(c, pkt), ClientOutcome, hit)
    else if SomeActs(c.sections, BySource(c, pkt)) then Follows(c.sections, BySource(c, pkt), ClientOutcome, hit)
    else if Routed(c, pkt.family) && Listed(pkt, "reject") then hit == Some(Hit(Refuse, Global))
    else if Routed(c, pkt.family) && Listed(pkt, "direct") then hit == Some(Hit(Pass, Global))
    else if SomeActs(c.sections, ByDestination(c, pkt)) then
      Follows(c.sections, ByDestination(c, pkt), DestinationOutcome(pkt), hit)
    else hit == if RefusedLast(c, pkt) then Some(Hit(Refuse, Tail)) else None
  }

  // ----- the chain obeys -----

  lemma {:induction false} MacsListed(ds: seq<Device>, name: string, mac: string)
    ensures mac in SectionMacs(ds, name) <==>
              exists d :: d in ds && d.enabled && d.section == name && d.mac == mac && d.mac != ""
    ensures mac in ExcludedMacs(ds) <==>
              exists d :: d in ds && d.enabled && d.exclude && d.mac == mac && d.mac != ""
  {
    if ds != [] {
      MacsListed(ds[..|ds| - 1], name, mac);
      assert ds == ds[..|ds| - 1] + [ds[|ds| - 1]];
    }
  }

  lemma {:induction false} CarriesIsTakes(s: Section, pkt: Packet)
    ensures Carries(s, pkt) <==> Takes(s, pkt)
  {
    hide Admits;
    EmptyAdmits();
    if s.Scoped() && Ports.Valid(s.destinationPorts) { NormalizationKeepsPorts(s.destinationPorts); }
    NormalizedIffValid(s.destinationPorts);
  }

  lemma {:induction false} NormalizedIffValid(x: string)
    ensures Normalized(x).Ok? <==> Ports.Valid(x)
  {
  }

  lemma {:induction false} Text853()
    ensures Itoa(853) == "853"
  {
    assert Itoa(8) == "8";
    assert Itoa(85) == "85";
  }

  lemma {:induction false} PortTexts(p: int)
    ensures Admits("443", p) <==> p == 443
    ensures Admits("853", p) <==> p == 853
    ensures "443" == Itoa(443)
  {
    hide Admits, Itoa;
    Text853();
    Routing.QuicPort(p);
    SinglePortNamed(853);
    AdmitsNamed("853", p);
  }

  lemma {:induction false} AdmitsNamed(ports: string, p: int)
    requires !Blank(ports)
    ensures Admits(ports, p) <==> Names(ports, p)
  {
  }

  lemma {:induction false} QuicIsRefused(s: Section, pkt: Packet)
    ensures RefusesQuic(s) && IsQuic(pkt) <==> RefusedQuic(s, pkt)
  {
    hide Admits, Intersection;
    PortTexts(pkt.dport);
    IntersectionValid(s.destinationPorts, "443");
    if Ports.Valid(s.destinationPorts) { PortProbe(s.destinationPorts, 443); }
  }

  lemma {:induction false} SetsListed(pkt: Packet, name: string)
    ensures InEither(pkt, SetOf(name, pkt.family)) <==> Listed(pkt, name)
  {
    assert "dns_" + (name + Digit(pkt.family)) == "dns_" + name + Digit(pkt.family);
  }

  function OwnSet(s: Section): string {
    if s.action.Reject? then "reject" else if s.action.Direct? then "direct" else "proxy_" + s.name
  }

  lemma {:induction false} OwnSetListed(s: Section, pkt: Packet)
    ensures InEither(pkt, s.NFTSet(pkt.family)) <==> Listed(pkt, OwnSet(s))
  {
    var name := OwnSet(s);
    assert s.NFTSet(pkt.family) == name + Digit(pkt.family);
    assert "dns_" + (name + Digit(pkt.family)) == "dns_" + name + Digit(pkt.family);
  }

  lemma {:induction false} DeviceOutcome(c: Config, s: Section, pkt: Packet)
    ensures DeviceHit(c, s, pkt) == if ByDevice(c, pkt)(s) then Some(ClientOutcome(s)) else None
  {
    hide Carries, Takes, SectionMacs;
    MacsListed(c.devices, s.name, pkt.mac);
    CarriesIsTakes(s, pkt);
  }

  lemma {:induction false} SourceOutcome(c: Config, s: Section, pkt: Packet)
    ensures SourceHit(c, s, pkt) == if BySource(c, pkt)(s) then Some(ClientOutcome(s)) else None
  {
    hide Carries, Takes;
    CarriesIsTakes(s, pkt);
  }

  /** The intersection lets through what both lists do. */
  lemma {:induction false} BothAdmit(a: string, b: string, port: int)
    ensures Intersection(a, b).1 && Admits(Intersection(a, b).0, port) <==>
              Ports.Valid(a) && Ports.Valid(b) && Admits(a, port) && Admits(b, port)
  {
    hide Admits, Intersection, Ports.Valid, Names, Blank;
    IntersectionValid(a, b);
    if Ports.Valid(a) && Ports.Valid(b) {
      IntersectionMeets(a, b);
      CommonPort(a, b, port);
    }
  }

  lemma {:induction false} SpeaksIsMatches(s: Section, proto: Protocol)
    requires proto.Tcp? || proto.Udp?
    ensures Speaks(s, proto) <==> s.MatchesProtocol(proto)
  {
  }

  lemma {:induction false} NarrowMeans(s: Section, zs: ZapretStrategy, proto: Protocol, port: int)
    requires proto.Tcp? || proto.Udp?
    ensures Narrow(s, zs, proto).Some? && Admits(Narrow(s, zs, proto).value, port) <==> Lets(zs, s, proto, port)
  {
    hide Admits, Intersection, Ports.Valid, ProtocolEnabled, Speaks, Section.MatchesProtocol, TrimSpace, Lower;
    NamesProtocol(zs, proto);
    SpeaksIsMatches(s, proto);
    BothAdmit(zs.PortsFor(proto), s.destinationPorts, port);
  }

  lemma {:induction false} LetsIsCovers(c: Config, s: Section, name: string, proto: Protocol, port: int)
    requires proto.Tcp? || proto.Udp?
    ensures StrategyCovers(c, s, name, proto, port) <==> LetsByName(c, s, name, proto, port)
  {
    hide Admits, Narrow, Lets, StrategyFrom;
    if c.ZapretStrategyByName(name).Some? {
      NarrowMeans(s, c.ZapretStrategyByName(name).value, proto, port);
    }
  }

  lemma {:induction false} NamesProtocol(zs: ZapretStrategy, proto: Protocol)
    requires proto.Tcp? || proto.Udp?
    ensures ProtocolEnabled(zs, proto) <==>
              exists i :: 0 <= i < |zs.protocols|
                          && Lower(TrimSpace(zs.protocols[i])) == if proto.Tcp? then "tcp" else "udp"
  {
    hide Lower, TrimSpace;
    assert "tcp"[0] != "udp"[0];
    if ProtocolEnabled(zs, proto) {
      var i :| 0 <= i < |zs.protocols| && ProtocolOf(Lower(TrimSpace(zs.protocols[i]))) == proto;
      assert Lower(TrimSpace(zs.protocols[i])) == if proto.Tcp? then "tcp" else "udp";
    }
  }

  lemma {:induction false} CommonPort(a: string, b: string, p: int)
    ensures Admits(a, p) && Admits(b, p) ==> Blank(a) || Blank(b) || exists q :: Names(a, q) && Names(b, q)
  {
    hide Blank, Names;
    assert Names(a, p) && Names(b, p) ==> exists q :: Names(a, q) && Names(b, q);
  }

  lemma {:induction false} DesyncedIsCovered(c: Config, s: Section, proto: Protocol, port: int)
    requires proto.Tcp? || proto.Udp?
    ensures Covered(c, s, proto, port) <==> Desynced(c, s, proto, port)
  {
    hide StrategyCovers, LetsByName;
    forall k | 0 <= k < |s.zapretStrategies|
      ensures Covers(c, s, proto, port)(s.zapretStrategies[k]) <==> LetsByName(c, s, s.zapretStrategies[k], proto, port)
    {
      LetsIsCovers(c, s, s.zapretStrategies[k], proto, port);
    }
  }

  lemma {:induction false} SectionOutcome(c: Config, s: Section, pkt: Packet)
    ensures SectionHit(c, s, pkt) == if ByDestination(c, pkt)(s) then Some(DestinationOutcome(pkt)(s)) else None
  {
    hide Carries, Takes, Covered, Desynced, RefusesQuic, IsQuic, RefusedQuic, Listed, InEither, Section.NFTSet;
    CarriesIsTakes(s, pkt);
    if pkt.proto.Tcp? || pkt.proto.Udp? { DesyncedIsCovered(c, s, pkt.proto, pkt.dport); }
    QuicIsRefused(s, pkt);
    OwnSetListed(s, pkt);
  }

  lemma {:induction false} DevicesObey(c: Config, pkt: Packet)
    ensures Follows(c.sections, ByDevice(c, pkt), ClientOutcome, FirstHit(ByPriority(c.sections), Devices(c, pkt)))
    ensures SomeActs(c.sections, ByDevice(c, pkt)) <==> FirstHit(ByPriority(c.sections), Devices(c, pkt)).Some?
  {
    hide DeviceHit, ByPriority, FirstHit, ClientOutcome;
    forall s | s in c.sections
      ensures Devices(c, pkt)(s) == if ByDevice(c, pkt)(s) then Some(ClientOutcome(s)) else None
    {
      DeviceOutcome(c, s, pkt);
    }
    PassFollows(c.sections, ByDevice(c, pkt), ClientOutcome, Devices(c, pkt));
  }

  lemma {:induction false} SourcesObey(c: Config, pkt: Packet)
    ensures Follows(c.sections, BySource(c, pkt), ClientOutcome, FirstHit(ByPriority(c.sections), Sources(c, pkt)))
    ensures SomeActs(c.sections, BySource(c, pkt)) <==> FirstHit(ByPriority(c.sections), Sources(c, pkt)).Some?
  {
    hide SourceHit, ByPriority, FirstHit, ClientOutcome;
    forall s | s in c.sections
      ensures Sources(c, pkt)(s) == if BySource(c, pkt)(s) then Some(ClientOutcome(s)) else None
    {
      SourceOutcome(c, s, pkt);
    }
    PassFollows(c.sections, BySource(c, pkt), ClientOutcome, Sources(c, pkt));
  }

  lemma {:induction false} DestinationsObey(c: Config, pkt: Packet)
    ensures Follows(c.sections, ByDestination(c, pkt), DestinationOutcome(pkt),
                    FirstHit(ByPriority(c.sections), Destinations(c, pkt)))
    ensures SomeActs(c.sections, ByDestination(c, pkt)) <==>
              FirstHit(ByPriority(c.sections), Destinations(c, pkt)).Some?
  {
    hide SectionHit, ByPriority, FirstHit;
    forall s | s in c.sections
      ensures Destinations(c, pkt)(s) == if ByDestination(c, pkt)(s) then Some(DestinationOutcome(pkt)(s)) else None
    {
      SectionOutcome(c, s, pkt);
    }
    PassFollows(c.sections, ByDestination(c, pkt), DestinationOutcome(pkt), Destinations(c, pkt));
  }

  lemma {:induction false} GuardsObey(c: Config, pkt: Packet)
    ensures GuardHit(c, pkt) == When(Guarded(c, pkt), Pass, Guard)
    ensures OrElse(BypassHit(c, pkt), ExcludedHit(c, pkt)) == When(LetOut(c, pkt), Pass, Bypass)
  {
    hide ExcludedMacs, InEither, Listed;
    MacsListed(c.devices, "", pkt.mac);
    SetsListed(pkt, "bypass");
  }

  lemma {:induction false} GlobalsObey(c: Config, pkt: Packet)
    ensures GlobalHit(c, pkt) ==
              if Routed(c, pkt.family) && Listed(pkt, "reject") then Some(Hit(Refuse, Global))
              else When(Routed(c, pkt.family) && Listed(pkt, "direct"), Pass, Global)
  {
    hide InEither, Listed;
    SetsListed(pkt, "reject");
    SetsListed(pkt, "direct");
  }

  lemma {:induction false} TailObeys(c: Config, pkt: Packet)
    ensures TailHit(c, pkt) == When(RefusedLast(c, pkt), Refuse, Tail)
  {
    hide Admits;
    PortTexts(pkt.dport);
  }

  lemma {:induction false} PreroutingObeys(c: Config, pkt: Packet)
    ensures Obeys(c, pkt, Prerouting(c, pkt))
  {
    hide GuardHit, BypassHit, ExcludedHit, GlobalHit, TailHit, FirstHit, ByPriority, Guarded, LetOut, SomeActs, Follows,
        RefusedLast, Listed;
    GuardsObey(c, pkt);
    DevicesObey(c, pkt);
    SourcesObey(c, pkt);
    GlobalsObey(c, pkt);
    DestinationsObey(c, pkt);
    TailObeys(c, pkt);
  }

  /** The prerouting chain obeys its policy for every packet. */
  method ObedientPrerouting(c: Config) returns (rules: seq<Rule>)
    ensures Obedient(c, rules)
  {
    rules := NFTablesPrerouting(c);
    hide FirstMatch, Prerouting, Obeys;
    forall pkt ensures Obeys(c, pkt, FirstMatch(rules, pkt)) {
      PreroutingObeys(c, pkt);
    }
  }

  // ----- a client's own section -----

  /** Rules that obey the policy for every packet. */
  ghost predicate Obedient(c: Config, rules: seq<Rule>) {
    forall pkt :: Obeys(c, pkt, FirstMatch(rules, pkt))
  }

  /** A device goes where the first section that names it and serves it sends it. */
  lemma {:induction false} DeviceDecides(c: Config, rules: seq<Rule>, pkt: Packet, i: nat)
    requires Obedient(c, rules) && !Guarded(c, pkt) && !LetOut(c, pkt)
    requires Leads(c.sections, i, ByDevice(c, pkt))
    ensures FirstMatch(rules, pkt) == Some(ClientOutcome(c.sections[i]))
  {
    hide FirstMatch, Guarded, LetOut;
    assert Obeys(c, pkt, FirstMatch(rules, pkt));
  }

  /** Whatever the destination is listed in, ... */
  lemma {:induction false} DeviceBeatsDestination(c: Config, rules: seq<Rule>, pkt: Packet, sets: set<string>)
    requires Obedient(c, rules) && !Guarded(c, pkt) && !LetOut(c, pkt)
    requires SomeActs(c.sections, ByDevice(c, pkt))
    requires !LetOut(c, pkt.(sets := sets))
    ensures FirstMatch(rules, pkt.(sets := sets)) == FirstMatch(rules, pkt)
  {
    hide FirstMatch, LetOut, Takes, Obedient, Assigned;
    var other := pkt.(sets := sets);
    var i := SomeLeads(c.sections, ByDevice(c, pkt));
    DeviceDecides(c, rules, pkt, i);
    forall s | s in c.sections ensures ByDevice(c, pkt)(s) == ByDevice(c, other)(s) {
      SameClient(c, s, pkt, sets, pkt.sources);
    }
    SameLeads(c.sections, ByDevice(c, pkt), ByDevice(c, other));
    DeviceDecides(c, rules, other, i);
  }

  /** ... and whatever networks its address is in. */
  lemma {:induction false} DeviceBeatsSource(c: Config, rules: seq<Rule>, pkt: Packet, sources: set<string>)
    requires Obedient(c, rules) && !Guarded(c, pkt) && !LetOut(c, pkt)
    requires SomeActs(c.sections, ByDevice(c, pkt))
    requires !LetOut(c, pkt.(sources := sources))
    ensures FirstMatch(rules, pkt.(sources := sources)) == FirstMatch(rules, pkt)
  {
    hide FirstMatch, LetOut, Takes, Obedient, Assigned;
    var other := pkt.(sources := sources);
    var i := SomeLeads(c.sections, ByDevice(c, pkt));
    DeviceDecides(c, rules, pkt, i);
    forall s | s in c.sections ensures ByDevice(c, pkt)(s) == ByDevice(c, other)(s) {
      SameClient(c, s, pkt, pkt.sets, sources);
    }
    SameLeads(c.sections, ByDevice(c, pkt), ByDevice(c, other));
    DeviceDecides(c, rules, other, i);
  }

  lemma {:induction false} SameClient(c: Config, s: Section, pkt: Packet, sets: set<string>, sources: set<string>)
    ensures var other := pkt.(sets := sets, sources := sources);
            && Takes(s, other) == Takes(s, pkt) && Assigned(c, s, other) == Assigned(c, s, pkt)
            && (sources == pkt.sources ==> Sourced(s, other) == Sourced(s, pkt))
  {
  }

  /** An address that no device rule takes goes where the first section whose networks hold it sends it. */
  lemma {:induction false} SourceDecides(c: Config, rules: seq<Rule>, pkt: Packet, i: nat)
    requires Obedient(c, rules) && !Guarded(c, pkt) && !LetOut(c, pkt)
    requires !SomeActs(c.sections, ByDevice(c, pkt)) && Leads(c.sections, i, BySource(c, pkt))
    ensures FirstMatch(rules, pkt) == Some(ClientOutcome(c.sections[i]))
  {
    hide FirstMatch, Guarded, LetOut;
    assert Obeys(c, pkt, FirstMatch(rules, pkt));
    assert SomeActs(c.sections, BySource(c, pkt));
  }

  /** It, too, beats the destination. */
  lemma {:induction false} SourceBeatsDestination(c: Config, rules: seq<Rule>, pkt: Packet, sets: set<string>)
    requires Obedient(c, rules) && !Guarded(c, pkt) && !LetOut(c, pkt)
    requires !SomeActs(c.sections, ByDevice(c, pkt)) && SomeActs(c.sections, BySource(c, pkt))
    requires !LetOut(c, pkt.(sets := sets))
    ensures FirstMatch(rules, pkt.(sets := sets)) == FirstMatch(rules, pkt)
  {
    hide FirstMatch, LetOut, Takes, Obedient, Assigned, Sourced;
    var other := pkt.(sets := sets);
    var i := SomeLeads(c.sections, BySource(c, pkt));
    SourceDecides(c, rules, pkt, i);
    forall s | s in c.sections
      ensures ByDevice(c, pkt)(s) == ByDevice(c, other)(s) && BySource(c, pkt)(s) == BySource(c, other)(s)
    {
      SameClient(c, s, pkt, sets, pkt.sources);
    }
    SameLeads(c.sections, ByDevice(c, pkt), ByDevice(c, other));
    SameLeads(c.sections, BySource(c, pkt), BySource(c, other));
    SourceDecides(c, rules, other, i);
  }

  // ----- the router's own packets -----

  /** Exempt processes, the router to itself, replies, other protocols, private destinations. */
  predicate OutputGuarded(c: Config, pkt: Packet) {
    || pkt.exempt || pkt.toLocal || pkt.reply || !(pkt.proto.Tcp? || pkt.proto.Udp?)
    || (Routed(c, pkt.family) && pkt.private)
  }

  predicate BypassListed(c: Config, pkt: Packet) {
    Routed(c, pkt.family) && (Listed(pkt, "bypass") || "proxy_server_bypass" + Digit(pkt.family) in pkt.sets)
  }

  predicate ServesOutput(c: Config, s: Section, pkt: Packet) {
    match s.action
    case Reject => Listed(pkt, "reject")
    case Direct => Listed(pkt, "direct")
    case Zapret => Listed(pkt, "proxy_" + s.name) && Desynced(c, s, pkt.proto, pkt.dport)
    case Proxy => Listed(pkt, "proxy_" + s.name) && Takes(s, pkt)
    case NoAction => Listed(pkt, "proxy_" + s.name) && Takes(s, pkt)
    case _ => false
  }

  function ByOutput(c: Config, pkt: Packet): Section -> bool {
    s => Routed(c, pkt.family) && (pkt.proto.Tcp? || pkt.proto.Udp?) && ServesOutput(c, s, pkt)
  }

  function OutputOutcome(s: Section): Hit {
    Hit(match s.action
        case Reject => Refuse
        case Direct => Pass
        case Zapret => Pass
        case _ => Mark, Of(s))
  }

  /** The verdict of the output chain, layer by layer. */
  ghost predicate OutputObeys(c: Config, pkt: Packet, hit: Option<Hit>) {
    if OutputGuarded(c, pkt) then hit == Some(Hit(Pass, Guard))
    else if BypassListed(c, pkt) then hit == Some(Hit(Pass, Bypass))
    else Follows(c.sections, ByOutput(c, pkt), OutputOutcome, hit)
  }

  lemma {:induction false} OutputSectionOutcome(c: Config, s: Section, pkt: Packet)
    requires pkt.proto.Tcp? || pkt.proto.Udp?
    ensures OutputSectionHit(c, s, pkt) == if ByOutput(c, pkt)(s) then Some(OutputOutcome(s)) else None
  {
    hide Carries, Takes, Covered, Desynced, Listed, InEither, Section.NFTSet;
    CarriesIsTakes(s, pkt);
    DesyncedIsCovered(c, s, pkt.proto, pkt.dport);
    OwnSetListed(s, pkt);
  }

  lemma {:induction false} OutputIsObedient(c: Config, pkt: Packet)
    ensures OutputObeys(c, pkt, Output(c, pkt))
  {
    hide FirstHit, ByPriority, SomeActs, Follows, Listed, InEither, OutputSectionHit, OutputOutcome;
    SetsListed(pkt, "bypass");
    if !OutputGuarded(c, pkt) {
      forall s | s in c.sections
        ensures Outputs(c, pkt)(s) == if ByOutput(c, pkt)(s) then Some(OutputOutcome(s)) else None
      {
        OutputSectionOutcome(c, s, pkt);
      }
      PassFollows(c.sections, ByOutput(c, pkt), OutputOutcome, Outputs(c, pkt));
    }
  }

  /** The output chain obeys its policy for every packet, so exempt traffic is never marked. */
  method ObedientOutput(c: Config) returns (rules: seq<Rule>)
    ensures forall pkt :: OutputObeys(c, pkt, FirstMatch(rules, pkt))
    ensures forall pkt: Packet :: pkt.exempt ==> FirstMatch(rules, pkt) == Some(Hit(Pass, Guard))
  {
    rules := WriteOutputChain(c);
    hide FirstMatch, Output, BypassListed, Follows;
    forall pkt ensures OutputObeys(c, pkt, FirstMatch(rules, pkt)) {
      OutputIsObedient(c, pkt);
    }
  }
}
