/** The two predictors of routing: by set membership, and by the provider lists that match. */
module Checker {
  import opened Lists
  import opened Text
  import opened Ports
  import opened Config
  import opened Zapret
  import StableSort

  /** What is known of a flow; None, 0 and "" mean unspecified. */
  datatype Flow = Flow(protocol: Option<Protocol>, port: nat, wan: string) {
    predicate Validate() {
      (protocol.None? || protocol.value.Tcp? || protocol.value.Udp?) && port <= 65535
    }

    predicate Full() { protocol.Some? && port != 0 && wan != "" }

    /** g says what f says, and perhaps more. */
    predicate RefinedBy(g: Flow) {
      && (protocol.Some? ==> g.protocol == protocol)
      && (port != 0 ==> g.port == port)
      && (wan != "" ==> g.wan == wan)
    }
  }

  datatype Status = Skip | Conditional | Refused | StaysDirect | Matched | Shadowed

  // ----- the scope of one section -----

  predicate ProtocolPossible(s: Section, zs: ZapretStrategy, text: string, f: Flow) {
    var proto := ProtocolOf(text);
    && (f.protocol.Some? ==> proto == f.protocol.value)
    && s.MatchesProtocol(proto)
    && PortPossible(zs.PortsFor(proto), s.destinationPorts, f.port)
  }

  predicate PortPossible(ports: string, section: string, port: nat) {
    var (both, ok) := Intersection(ports, section);
    ok && (port != 0 ==> Intersection(both, Itoa(port)).1)
  }

  function PossibleFor(s: Section, zs: ZapretStrategy, f: Flow): string -> bool {
    text => ProtocolPossible(s, zs, text, f)
  }

  predicate StrategyPossible(c: Config, s: Section, name: string, f: Flow) {
    var zs := c.ZapretStrategyByName(name);
    zs.Some? && Any(zs.value.protocols, PossibleFor(s, zs.value, f))
  }

  function Possible(c: Config, s: Section, f: Flow): string -> bool {
    name => StrategyPossible(c, s, name, f)
  }

  function PossibleOnWan(c: Config, s: Section, f: Flow): string -> bool {
    name => StrategyPossible(c, s, name, f) && ProfileTakes(c, name, Some(f.wan))
  }

  function ZapretScope(c: Config, s: Section, f: Flow): Status {
    if !Any(s.zapretStrategies, Possible(c, s, f)) then Skip
    else if !f.Full() then Conditional
    else if !Any(s.zapretStrategies, PossibleOnWan(c, s, f)) then StaysDirect
    else Matched
  }

  function ProxyScope(s: Section, f: Flow): Status {
    if f.protocol.None? || (f.port == 0 && (s.destinationPorts != "" || s.udpMode.BlockQuic?)) then Conditional
    else if f.protocol == Some(Udp) && f.port == 443 && s.udpMode.BlockQuic? then Refused
    else Matched
  }

  function Scope(c: Config, s: Section, f: Flow): Status {
    if s.action.Direct? || s.action.Reject? then Matched
    else if !s.Scoped() then Skip
    else if f.protocol.Some? && !s.MatchesProtocol(f.protocol.value) then Skip
    else if f.protocol == Some(Udp) && s.action.Proxy? && s.udpMode.TcpOnly? then Skip
    else if f.port != 0 && !Intersection(s.destinationPorts, Itoa(f.port)).1 then Skip
    else if s.action.Proxy? then ProxyScope(s, f)
    else ZapretScope(c, s, f)
  }

  /** The inner loop: one strategy, its protocols as spelled. */
  method ScanProtocols(s: Section, zs: ZapretStrategy, f: Flow) returns (possible: bool)
    ensures possible == Any(zs.protocols, PossibleFor(s, zs, f))
  {
    hide Intersection, ProtocolOf;
    possible := false;
    for i := 0 to |zs.protocols|
      invariant possible == Any(zs.protocols[..i], PossibleFor(s, zs, f))
    {
      AnySnoc(zs.protocols, i, PossibleFor(s, zs, f));
      var proto := ProtocolOf(zs.protocols[i]);
      if (f.protocol.Some? && proto != f.protocol.value) || !s.MatchesProtocol(proto) {
        continue;
      }
      var (ports, ok) := Intersection(zs.PortsFor(proto), s.destinationPorts);
      if !ok {
        continue;
      }
      if f.port != 0 {
        ok := Intersection(ports, Itoa(f.port)).1;
        if !ok {
          continue;
        }
      }
      possible := true;
    }
    assert zs.protocols[..|zs.protocols|] == zs.protocols;
  }

  method ScanStrategies(c: Config, s: Section, f: Flow) returns (possible: bool, wanMatch: bool)
    ensures possible == Any(s.zapretStrategies, Possible(c, s, f))
    ensures wanMatch == Any(s.zapretStrategies, PossibleOnWan(c, s, f))
  {
    hide StrategyFrom, ProfileFrom, PossibleFor;
    var names := s.zapretStrategies;
    possible, wanMatch := false, false;
    for i := 0 to |names|
      invariant possible == Any(names[..i], Possible(c, s, f))
      invariant wanMatch == Any(names[..i], PossibleOnWan(c, s, f))
    {
      AnySnoc(names, i, Possible(c, s, f));
      AnySnoc(names, i, PossibleOnWan(c, s, f));
      var found := c.ZapretStrategyByName(names[i]);
      if found.None? {
        continue;
      }
      var zs := found.value;
      var p := c.ZapretProfileByName(zs.profile);
      var can := ScanProtocols(s, zs, f);
      if can {
        possible := true;
        if p.Some? && (p.value.interfaces == [] || f.wan in p.value.interfaces) {
          wanMatch := true;
        }
      }
    }
    assert names[..|names|] == names;
  }

  method SectionFlowScope(c: Config, s: Section, f: Flow) returns (status: Status)
    ensures status == Scope(c, s, f)
  {
    hide Intersection;
    if s.action.Direct? || s.action.Reject? {
      return Matched;
    }
    if !s.action.Proxy? && !s.action.Zapret? {
      return Skip;
    }
    if f.protocol.Some? && !s.MatchesProtocol(f.protocol.value) {
      return Skip;
    }
    if f.protocol == Some(Udp) && s.action.Proxy? && s.udpMode.TcpOnly? {
      return Skip;
    }
    if f.port != 0 {
      var ok := Intersection(s.destinationPorts, Itoa(f.port)).1;
      if !ok {
        return Skip;
      }
    }
    if s.action.Proxy? {
      if f.protocol.None? || (f.port == 0 && (s.destinationPorts != "" || s.udpMode.BlockQuic?)) {
        return Conditional;
      }
      if f.protocol == Some(Udp) && f.port == 443 && s.udpMode.BlockQuic? {
        return Refused;
      }
      return Matched;
    }
    var possible, wanMatch := ScanStrategies(c, s, f);
    if !possible {
      return Skip;
    }
    if f.protocol.None? || f.port == 0 || f.wan == "" {
      return Conditional;
    }
    if !wanMatch {
      return StaysDirect;
    }
    return Matched;
  }

  // ----- classifying an address -----

  datatype RouteAction = By(action: Action) | Unclear | Bypassing | Default

  datatype RoutingStep = RoutingStep(section: string, priority: int, action: RouteAction, status: Status)

  datatype IPRoute = IPRoute(set_: string, section: string, action: RouteAction, steps: seq<RoutingStep>)

  predicate In(sets: set<string>, base: string) { base in sets || "dns_" + base in sets }

  function Key(): Section -> StableSort.Key { (s: Section) => (s.priority, 0) }

  function ActionFor(s: Section, status: Status): RouteAction {
    match status
    case Conditional => Unclear
    case Refused => By(Reject)
    case StaysDirect => By(Direct)
    case _ => By(s.action)
  }

  /** The loop looks at the section at all. */
  predicate Considers(c: Config, s: Section, family: Family, sets: set<string>) {
    s.enabled && c.Routes(family) && In(sets, s.NFTSet(family))
  }

  datatype Scan = Scan(chosen: Option<Section>, action: RouteAction, steps: seq<RoutingStep>)

  function ScanTurn(c: Config, s: Section, family: Family, sets: set<string>, f: Flow, was: Scan): Scan {
    if was.chosen.Some? || !Considers(c, s, family, sets) then was
    else
      var status := Scope(c, s, f);
      var steps := was.steps + [RoutingStep(s.name, s.priority, By(s.action), status)];
      if status.Skip? then was.(steps := steps) else Scan(Some(s), ActionFor(s, status), steps)
  }

  /** Section by section until one answers. */
  function ScanSections(c: Config, ss: seq<Section>, family: Family, sets: set<string>, f: Flow): Scan {
    if ss == [] then Scan(None, Default, [])
    else ScanTurn(c, ss[|ss| - 1], family, sets, f, ScanSections(c, ss[..|ss| - 1], family, sets, f))
  }

  lemma {:induction false} ScanSettles(c: Config, ss: seq<Section>, i: nat, family: Family, sets: set<string>,
      f: Flow)
    requires i <= |ss| && ScanSections(c, ss[..i], family, sets, f).chosen.Some?
    ensures ScanSections(c, ss, family, sets, f) == ScanSections(c, ss[..i], family, sets, f)
  {
    hide Scope;
    if i == |ss| {
      assert ss[..i] == ss;
    } else {
      assert ss[..|ss| - 1][..i] == ss[..i];
      ScanSettles(c, ss[..|ss| - 1], i, family, sets, f);
    }
  }

  function ScanRoute(scan: Scan, family: Family): IPRoute {
    match scan.chosen
    case Some(s) => IPRoute(s.NFTSet(family), s.name, scan.action, scan.steps)
    case None => IPRoute("", "", Default, scan.steps)
  }

  function Suffix(f: Family): string { if f.V4? then "4" else "6" }

  /** ClassifyIPFlow for an address of the given family in the given sets; None is an address that does not parse. */
  function Classify(c: Config, address: Option<Family>, sets: set<string>, f: Flow): IPRoute {
    if address.None? then IPRoute("", "", Default, [])
    else
      var suf := Suffix(address.value);
      if In(sets, "bypass" + suf) then IPRoute("bypass" + suf, "bypass", Bypassing, [])
      else if "proxy_server_bypass" + suf in sets then IPRoute("proxy_server_bypass" + suf, "bypass", Bypassing, [])
      else if In(sets, "reject" + suf) then IPRoute("reject" + suf, "reject", By(Reject), [])
      else if In(sets, "direct" + suf) then IPRoute("direct" + suf, "direct", By(Direct), [])
      else ScanRoute(ScanSections(c, StableSort.Sort(c.sections, Key()), address.value, sets, f), address.value)
  }

  method ClassifyIPFlow(c: Config, address: Option<Family>, sets: set<string>, f: Flow) returns (r: IPRoute)
    ensures r == Classify(c, address, sets, f)
  {
    hide Scope;
    if address.None? {
      return IPRoute("", "", Default, []);
    }
    var suf := Suffix(address.value);
    if In(sets, "bypass" + suf) {
      return IPRoute("bypass" + suf, "bypass", Bypassing, []);
    }
    if "proxy_server_bypass" + suf in sets {
      return IPRoute("proxy_server_bypass" + suf, "bypass", Bypassing, []);
    }
    if In(sets, "reject" + suf) {
      return IPRoute("reject" + suf, "reject", By(Reject), []);
    }
    if In(sets, "direct" + suf) {
      return IPRoute("direct" + suf, "direct", By(Direct), []);
    }
    r := ClassifySections(c, address.value, sets, f);
  }

  method ClassifySections(c: Config, family: Family, sets: set<string>, f: Flow) returns (r: IPRoute)
    ensures r == ScanRoute(ScanSections(c, StableSort.Sort(c.sections, Key()), family, sets, f), family)
  {
    hide Scope, StableSort.Sort, In, Section.NFTSet, StableSort.IsStableSort;
    var secs := StableSort.SliceStable(c.sections, Key());
    var steps := [];
    for i := 0 to |secs|
      invariant ScanSections(c, secs[..i], family, sets, f) == Scan(None, Default, steps)
    {
      var s := secs[i];
      assert secs[..i + 1][..i] == secs[..i];
      if !s.enabled || (family.V6? && !c.IPv6Routed()) {
        continue;
      }
      var name := s.NFTSet(family);
      if In(sets, name) {
        var status := SectionFlowScope(c, s, f);
        steps := steps + [RoutingStep(s.name, s.priority, By(s.action), status)];
        if status.Skip? {
          continue;
        }
        var action := By(s.action);
        if status.Conditional? {
          action := Unclear;
        } else if status.Refused? {
          action := By(Reject);
        } else if status.StaysDirect? {
          action := By(Direct);
        }
        ScanSettles(c, secs, i + 1, family, sets, f);
        return IPRoute(name, s.name, action, steps);
      }
    }
    assert secs[..|secs|] == secs;
    return IPRoute("", "", Default, steps);
  }

  // ----- tracing a destination -----

  datatype RoutingTrace = RoutingTrace(action: RouteAction, section: string,
      uncertain: bool, terminal: bool, steps: seq<RoutingStep>)

  function Rank(s: Section): int {
    if s.action.Reject? then 0 else if s.action.Direct? then 1 else 2
  }

  function RankKey(): Section -> StableSort.Key { (s: Section) => (Rank(s), s.priority) }

  /** The section's status for the query, with the address family taken into account. */
  function QueryScope(c: Config, s: Section, six: bool, f: Flow): Status {
    if six && !c.IPv6Routed() && !s.action.Direct? && !s.action.Reject? then Skip else Scope(c, s, f)
  }

  /** One turn of the decision loop, for a section with matching providers. */
  function TraceTurn(s: Section, scope: Status, was: RoutingTrace): RoutingTrace {
    var action := if scope.Refused? then By(Reject) else if scope.StaysDirect? then By(Direct) else By(s.action);
    if scope.Skip? || was.terminal then
      was.(steps := was.steps + [RoutingStep(s.name, s.priority, action, if scope.Skip? then Skip else Shadowed)])
    else if was.uncertain || scope.Conditional? then
      was.(action := Unclear, uncertain := true,
           steps := was.steps + [RoutingStep(s.name, s.priority, action, Conditional)])
    else
      was.(action := action, section := s.name, terminal := true,
           steps := was.steps + [RoutingStep(s.name, s.priority, action, Matched)])
  }

  function TraceSections(c: Config, ss: seq<Section>, matches: set<string>, six: bool, f: Flow): RoutingTrace {
    if ss == [] then RoutingTrace(By(Direct), "", false, false, [])
    else
      var was := TraceSections(c, ss[..|ss| - 1], matches, six, f);
      var s := ss[|ss| - 1];
      if !s.enabled || s.name !in matches then was else TraceTurn(s, QueryScope(c, s, six, f), was)
  }

  /** The trace for a query whose matching providers belong to the named sections. */
  function Trace(c: Config, matches: set<string>, six: bool, warned: bool, f: Flow): RoutingTrace {
    var t := TraceSections(c, StableSort.Sort(c.sections, RankKey()), matches, six, f);
    if warned then t.(action := Unclear, section := "") else t
  }

  /** The decision loop of TraceDestination. */
  method TraceDestination(c: Config, matches: set<string>, six: bool, warned: bool,
      f: Flow) returns (result: RoutingTrace)
    ensures result == Trace(c, matches, six, warned, f)
  {
    hide Scope, StableSort.Sort;
    var ordered := StableSort.SliceStable(c.sections, RankKey());
    result := RoutingTrace(By(Direct), "", false, false, []);
    for i := 0 to |ordered|
      invariant result == TraceSections(c, ordered[..i], matches, six, f)
    {
      var s := ordered[i];
      assert ordered[..i + 1][..i] == ordered[..i];
      if !s.enabled || s.name !in matches {
        continue;
      }
      var status := SectionFlowScope(c, s, f);
      ScopeStatuses(c, s, f);
      if six && !c.IPv6Routed() && !s.action.Direct? && !s.action.Reject? {
        status := Skip;
      }
      var action := By(s.action);
      if status.Refused? || status.StaysDirect? {
        action := if status.Refused? then By(Reject) else By(Direct);
        status := Matched;
      }
      if status.Matched? || status.Conditional? {
        if result.terminal {
          status := Shadowed;
        } else if result.uncertain {
          status := Conditional;
        } else if status.Matched? {
          result := result.(action := action, section := s.name, terminal := true);
        }
        if status.Conditional? {
          result := result.(uncertain := true, action := Unclear);
        }
      }
      result := result.(steps := result.steps + [RoutingStep(s.name, s.priority, action, status)]);
    }
    assert ordered[..|ordered|] == ordered;
    if warned {
      result := result.(action := Unclear, section := "");
    }
  }

  lemma {:induction false} ScopeStatuses(c: Config, s: Section, f: Flow)
    ensures !Scope(c, s, f).Shadowed?
  {
    hide Intersection, Any, Possible, PossibleOnWan;
  }

  // ----- saying more never changes a definite answer -----

  /** Nothing that was ruled out or settled comes back. */
  predicate Settles(a: Status, b: Status) { a.Conditional? || a == b }

  lemma {:induction false} PortPossibleLess(ports: string, section: string, port: nat)
    ensures PortPossible(ports, section, port) ==> PortPossible(ports, section, 0)
  {
    hide Intersection;
  }

  lemma {:induction false} PossibleLess(c: Config, s: Section, name: string, f: Flow, g: Flow)
    requires f.RefinedBy(g)
    ensures StrategyPossible(c, s, name, g) ==> StrategyPossible(c, s, name, f)
  {
    hide Intersection, StrategyFrom, PortPossible, ProtocolOf;
    if StrategyPossible(c, s, name, g) {
      var zs := c.ZapretStrategyByName(name).value;
      var i :| 0 <= i < |zs.protocols| && PossibleFor(s, zs, g)(zs.protocols[i]);
      PortPossibleLess(zs.PortsFor(ProtocolOf(zs.protocols[i])), s.destinationPorts, g.port);
      assert PossibleFor(s, zs, f)(zs.protocols[i]);
    }
  }

  lemma {:induction false} AnyPossibleLess(c: Config, s: Section, f: Flow, g: Flow)
    requires f.RefinedBy(g)
    ensures Any(s.zapretStrategies, Possible(c, s, g)) ==> Any(s.zapretStrategies, Possible(c, s, f))
  {
    hide StrategyPossible;
    if Any(s.zapretStrategies, Possible(c, s, g)) {
      var i :| 0 <= i < |s.zapretStrategies| && Possible(c, s, g)(s.zapretStrategies[i]);
      PossibleLess(c, s, s.zapretStrategies[i], f, g);
      assert Possible(c, s, f)(s.zapretStrategies[i]);
    }
  }

  lemma {:induction false} AnyPortPasses(port: nat)
    requires 1 <= port <= 65535
    ensures Intersection("", Itoa(port)).1
  {
    PortProbe("", port);
    assert Blank("");
  }

  lemma {:induction false} ScopeSettles(c: Config, s: Section, f: Flow, g: Flow)
    requires f.RefinedBy(g) && g.Validate()
    ensures Settles(Scope(c, s, f), Scope(c, s, g))
  {
    hide Intersection, Any, Possible, PossibleOnWan;
    AnyPossibleLess(c, s, f, g);
    if g.port != 0 { AnyPortPasses(g.port); }
    if f.Full() { assert f == g; }
  }

  // ----- what a partial flow leaves open -----

  /** Some fully described flow that agrees with f reaches the section. */
  ghost predicate Reachable(c: Config, s: Section, f: Flow) {
    exists g: Flow :: f.RefinedBy(g) && g.Full() && g.Validate() && !Scope(c, s, g).Skip?
  }

  /** Protocols are spelled tcp or udp, and the section's ports can be read: the validators check the latter. */
  predicate Plain(c: Config, s: Section) {
    && Ports.Valid(s.destinationPorts) && !s.matchProtocol.Unsupported?
    && forall k :: 0 <= k < |s.zapretStrategies| ==> PlainNamed(c, s.zapretStrategies[k])
  }

  predicate PlainNamed(c: Config, name: string) {
    c.ZapretStrategyByName(name).Some? ==>
      var texts := c.ZapretStrategyByName(name).value.protocols;
      forall i :: 0 <= i < |texts| ==> texts[i] == "tcp" || texts[i] == "udp"
  }

  /** A section for UDP that proxies TCP alone: nothing reaches it, but without a protocol it is undecided. */
  predicate Vain(s: Section, f: Flow) {
    s.action.Proxy? && f.protocol.None? && s.matchProtocol.OnlyUdp? && s.udpMode.TcpOnly?
  }

  lemma {:induction false} SomePort(value: string) returns (p: int)
    requires Ports.Valid(value)
    ensures 1 <= p <= 65535 && Admits(value, p)
  {
    if Blank(value) {
      return 1;
    }
    var r := Written(value).value[0];
    p := r.first;
    assert r.Has(p);
  }

  /** A port that both lists let through, the flow's own when it has one. */
  lemma {:induction false} CommonPort(ports: string, section: string, port: nat) returns (p: nat)
    requires PortPossible(ports, section, port) && port <= 65535
    ensures 1 <= p <= 65535 && (port != 0 ==> p == port)
    ensures PortPossible(ports, section, p) && Intersection(section, Itoa(p)).1
  {
    hide Intersection, Admits, Ports.Valid, Blank, Names;
    IntersectionValid(ports, section);
    IntersectionMeets(ports, section);
    var both := Intersection(ports, section).0;
    if port != 0 { p := port; } else { p := SomePort(both); }
    PortProbe(both, p);
    PortProbe(section, p);
  }

  lemma {:induction false} ProxyReachable(c: Config, s: Section, f: Flow)
    requires f.Validate() && Plain(c, s) && s.action.Proxy? && !Scope(c, s, f).Skip? && !Vain(s, f)
    ensures Reachable(c, s, f)
  {
    hide Intersection, Admits;
    var proto := if f.protocol.Some? then f.protocol.value else if s.matchProtocol.OnlyUdp? then Udp else Tcp;
    var p: nat := f.port;
    if p == 0 { p := SomePort(s.destinationPorts); }
    PortProbe(s.destinationPorts, p);
    var g := Flow(Some(proto), p, if f.wan == "" then "wan" else f.wan);
    assert f.RefinedBy(g) && g.Full() && g.Validate() && !Scope(c, s, g).Skip?;
  }

  lemma {:induction false} ZapretReachable(c: Config, s: Section, f: Flow)
    requires f.Validate() && Plain(c, s) && s.action.Zapret? && !Scope(c, s, f).Skip?
    ensures Reachable(c, s, f)
  {
    hide Intersection, StrategyPossible, Plain, PlainNamed, Ports.Valid, Section.MatchesProtocol;
    var k :| 0 <= k < |s.zapretStrategies| && Possible(c, s, f)(s.zapretStrategies[k]);
    assert PlainNamed(c, s.zapretStrategies[k]) by { PlainAt(c, s, k); }
    var g := PossibleFlow(c, s, s.zapretStrategies[k], f);
    InScope(c, s, g, k);
    assert f.RefinedBy(g) && g.Full() && g.Validate();
  }

  lemma {:induction false} PlainAt(c: Config, s: Section, k: nat)
    requires Plain(c, s) && k < |s.zapretStrategies|
    ensures PlainNamed(c, s.zapretStrategies[k])
  {
  }

  /** A full flow for which the strategy is still possible. */
  lemma {:induction false} PossibleFlow(c: Config, s: Section, name: string, f: Flow) returns (g: Flow)
    requires f.Validate() && PlainNamed(c, name) && StrategyPossible(c, s, name, f)
    ensures f.RefinedBy(g) && g.Full() && g.Validate() && StrategyPossible(c, s, name, g)
    ensures s.MatchesProtocol(g.protocol.value) && Intersection(s.destinationPorts, Itoa(g.port)).1
  {
    hide Intersection, PortPossible, StrategyFrom, Section.MatchesProtocol, Itoa;
    var zs := c.ZapretStrategyByName(name).value;
    var i :| 0 <= i < |zs.protocols| && PossibleFor(s, zs, f)(zs.protocols[i]);
    var proto := ProtocolOf(zs.protocols[i]);
    var p := CommonPort(zs.PortsFor(proto), s.destinationPorts, f.port);
    g := Flow(Some(proto), p, if f.wan == "" then "wan" else f.wan);
    assert PossibleFor(s, zs, g)(zs.protocols[i]);
  }

  lemma {:induction false} InScope(c: Config, s: Section, g: Flow, k: nat)
    requires g.Full() && s.action.Zapret? && s.MatchesProtocol(g.protocol.value)
    requires Intersection(s.destinationPorts, Itoa(g.port)).1
    requires k < |s.zapretStrategies| && Possible(c, s, g)(s.zapretStrategies[k])
    ensures !Scope(c, s, g).Skip?
  {
    hide Intersection, StrategyPossible, Section.MatchesProtocol;
  }

  /** A partial flow's section is skipped, or undecided in vain, exactly when nothing that f may become reaches it. */
  lemma {:induction false} SkippedExactly(c: Config, s: Section, f: Flow)
    requires f.Validate() && Plain(c, s)
    ensures Scope(c, s, f).Skip? || Vain(s, f) <==> !Reachable(c, s, f)
  {
    hide Intersection, Any, Possible, PossibleOnWan, Plain;
    forall g: Flow | f.RefinedBy(g) && g.Full() && g.Validate() && (Scope(c, s, f).Skip? || Vain(s, f))
      ensures Scope(c, s, g).Skip?
    {
      ScopeSettles(c, s, f, g);
    }
    if !Scope(c, s, f).Skip? && !Vain(s, f) {
      if s.action.Proxy? {
        ProxyReachable(c, s, f);
      } else if s.action.Zapret? {
        ZapretReachable(c, s, f);
      } else {
        var g := Flow(if f.protocol.Some? then f.protocol else Some(Tcp), if f.port == 0 then 1 else f.port,
                      if f.wan == "" then "wan" else f.wan);
        assert f.RefinedBy(g) && g.Full() && g.Validate() && !Scope(c, s, g).Skip?;
      }
    }
  }

  /** A proxied section never waits for the device, and without port rules nor for the port. */
  lemma {:induction false} ProxyDecides(c: Config, s: Section, f: Flow)
    requires s.action.Proxy? && f.protocol.Some?
    ensures Scope(c, s, f).Conditional? ==> f.port == 0 && (s.destinationPorts != "" || s.udpMode.BlockQuic?)
    ensures forall wan :: Scope(c, s, f.(wan := wan)) == Scope(c, s, f)
  {
    hide Intersection;
  }

  /** f has no answer yet, or both have the same one. */
  predicate SameAnswer(a: RoutingTrace, b: RoutingTrace) {
    if a.uncertain then a.action.Unclear? && !a.terminal
    else !b.uncertain && a.action == b.action && a.section == b.section && a.terminal == b.terminal
  }

  lemma {:induction false} TraceSettles(c: Config, ss: seq<Section>, matches: set<string>, six: bool, f: Flow,
      g: Flow)
    requires f.RefinedBy(g) && g.Validate()
    ensures SameAnswer(TraceSections(c, ss, matches, six, f), TraceSections(c, ss, matches, six, g))
  {
    hide Scope;
    if ss != [] {
      TraceSettles(c, ss[..|ss| - 1], matches, six, f, g);
      ScopeSettles(c, ss[|ss| - 1], f, g);
    }
  }

  /** A definite answer survives every refinement of the flow. */
  lemma {:induction false} RefiningKeepsTheAnswer(c: Config, matches: set<string>, six: bool, warned: bool, f: Flow,
      g: Flow)
    requires f.RefinedBy(g) && g.Validate()
    requires !Trace(c, matches, six, warned, f).action.Unclear?
    ensures Trace(c, matches, six, warned, g).action == Trace(c, matches, six, warned, f).action
    ensures Trace(c, matches, six, warned, g).section == Trace(c, matches, six, warned, f).section
  {
    hide TraceSections, StableSort.Sort;
    TraceSettles(c, StableSort.Sort(c.sections, RankKey()), matches, six, f, g);
  }

  lemma {:induction false} FullScope(c: Config, s: Section, f: Flow)
    requires f.Full()
    ensures !Scope(c, s, f).Conditional?
  {
    hide Intersection, Any, Possible, PossibleOnWan;
  }

  lemma {:induction false} FullTrace(c: Config, ss: seq<Section>, matches: set<string>, six: bool, f: Flow)
    requires f.Full()
    ensures !TraceSections(c, ss, matches, six, f).uncertain && !TraceSections(c, ss, matches, six, f).action.Unclear?
  {
    hide Scope;
    if ss != [] {
      FullTrace(c, ss[..|ss| - 1], matches, six, f);
      FullScope(c, ss[|ss| - 1], f);
    }
  }

  /** A full flow is unclear exactly when a provider could not be read. */
  lemma {:induction false} FullFlowIsNeverConditional(c: Config, matches: set<string>, six: bool, warned: bool,
      f: Flow)
    requires f.Full()
    ensures Trace(c, matches, six, warned, f).action.Unclear? <==> warned
  {
    hide TraceSections, StableSort.Sort;
    FullTrace(c, StableSort.Sort(c.sections, RankKey()), matches, six, f);
  }
}
