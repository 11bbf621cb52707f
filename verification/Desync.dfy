/**
  The zapret chain at work on the packets of a connection: the first rule that
  matches hands the packet over and writes its selector into the connection, and
  from then on only rules of that selector match.
*/
module Desync {
  import opened Text
  import opened Config
  import opened Zapret
  import Ports
  import ZapretCompiler

  /** What the packets of a connection share; `sets` are those that hold the destination. */
  datatype Flow = Flow(family: Family, sets: set<string>, proto: Protocol, port: int, device: string)

  /** The place of a packet in its direction, and whether it carries FIN or RST. */
  datatype Segment = Segment(ordinal: int, closing: bool)

  predicate Falls(w: Window, p: Segment) {
    match w
    case FirstPackets(count) => 1 <= p.ordinal <= count
    case FinOrRst => p.closing
  }

  /** The rule's whole test: the connection, too, is free or marked by the rule's own strategy. */
  predicate Matches(r: QueueRule, f: Flow, p: Segment, conn: nat) {
    && r.dst in f.sets && Queues(r, f.family, r.dst, f.proto, f.port, Some(f.device))
    && Falls(r.window, p) && (conn == 0 || conn == r.selector)
  }

  /** The selector of the first rule that matches. */
  function Taken(rules: seq<QueueRule>, f: Flow, p: Segment, conn: nat): Option<nat> {
    if rules == [] then None
    else if Matches(rules[0], f, p, conn) then Some(rules[0].selector)
    else Taken(rules[1..], f, p, conn)
  }

  lemma {:induction false} TakenConcat(a: seq<QueueRule>, b: seq<QueueRule>, f: Flow, p: Segment, conn: nat)
    ensures Taken(a + b, f, p, conn) ==
            if Taken(a, f, p, conn).Some? then Taken(a, f, p, conn) else Taken(b, f, p, conn)
  {
    hide Matches;
    if a == [] {
      assert a + b == b;
    } else {
      assert (a + b)[1..] == a[1..] + b;
      TakenConcat(a[1..], b, f, p, conn);
    }
  }

  ghost predicate SomeMatches(rules: seq<QueueRule>, f: Flow, p: Segment, conn: nat) {
    exists r :: r in rules && Matches(r, f, p, conn)
  }

  lemma {:induction false} TakenOfOne(rules: seq<QueueRule>, selector: nat, f: Flow, p: Segment, conn: nat)
    requires forall r :: r in rules ==> r.selector == selector
    ensures Taken(rules, f, p, conn) == if SomeMatches(rules, f, p, conn) then Some(selector) else None
  {
    hide Matches;
    if rules != [] {
      TakenOfOne(rules[1..], selector, f, p, conn);
      if Matches(rules[0], f, p, conn) { assert rules[0] in rules; }
    }
  }

  // ----- which strategy takes a packet -----

  function SelectorOf(c: Config, name: string): nat {
    if c.ZapretStrategyByName(name).Some? then c.ZapretStrategyByName(name).value.selectorMark else 0
  }

  /** One of the first packets that the strategy asks for, or the close of a TCP connection. */
  predicate OnTime(zs: ZapretStrategy, proto: Protocol, p: Segment) {
    || (proto.Tcp? && (1 <= p.ordinal <= zs.tcpPktOut || p.closing))
    || (proto.Udp? && 1 <= p.ordinal <= zs.udpPktOut)
  }

  /** The section's sets hold the destination, the strategy is for the flow and its device, and it wants the packet. */
  predicate Takes(c: Config, s: Section, name: string, f: Flow, p: Segment) {
    && c.Routes(f.family) && (exists d :: d in s.SetRefs(f.family) && d in f.sets)
    && StrategyQueues(c, s, name, f.proto, f.port, Some(f.device))
    && OnTime(c.ZapretStrategyByName(name).value, f.proto, p)
  }

  /** Nor does the connection belong to another. */
  predicate TakesFor(c: Config, s: Section, name: string, f: Flow, p: Segment, conn: nat) {
    Takes(c, s, name, f, p) && (conn == 0 || conn == SelectorOf(c, name))
  }

  lemma {:induction false} WatchesOnTime(zs: ZapretStrategy, proto: Protocol, p: Segment)
    ensures OnTime(zs, proto, p) <==> exists w :: Watches(zs, proto, w) && Falls(w, p)
  {
    if OnTime(zs, proto, p) {
      var w := if proto.Udp? then FirstPackets(zs.udpPktOut)
               else if 1 <= p.ordinal <= zs.tcpPktOut then FirstPackets(zs.tcpPktOut) else FinOrRst;
      assert Watches(zs, proto, w) && Falls(w, p);
    }
  }

  lemma {:induction false} MatchIsTaken(c: Config, s: Section, name: string, r: QueueRule, f: Flow, p: Segment,
      conn: nat)
    requires RuleOf(c, s, name, r) && Matches(r, f, p, conn)
    ensures TakesFor(c, s, name, f, p, conn)
  {
    hide StrategyCovers, StrategyFrom, ProfileFrom, Ports.Admits, Section.SetRefs, Watches, Falls, OnTime;
    WatchesOnTime(c.ZapretStrategyByName(name).value, f.proto, p);
    assert r.dst in s.SetRefs(f.family) && r.dst in f.sets;
  }

  lemma {:induction false} TakenIsMatched(c: Config, s: Section, name: string, rules: seq<QueueRule>, f: Flow,
      p: Segment, conn: nat)
    requires HasRules(c, s, name, rules) && TakesFor(c, s, name, f, p, conn)
    ensures SomeMatches(rules, f, p, conn)
  {
    hide StrategyCovers, StrategyFrom, ProfileFrom, Ports.Admits, Section.SetRefs, Watches, Falls, OnTime;
    var zs := c.ZapretStrategyByName(name).value;
    WatchesOnTime(zs, f.proto, p);
    var w :| Watches(zs, f.proto, w) && Falls(w, p);
    var d :| d in s.SetRefs(f.family) && d in f.sets;
    assert Wants(c, s, name, f.family, d, f.proto, f.port, w);
    var r :| r in rules && RuleOf(c, s, name, r) && r.family == f.family && r.dst == d && r.proto == f.proto
             && r.window == w;
    assert Matches(r, f, p, conn);
  }

  /** The rules of one strategy take a packet exactly when the strategy does. */
  lemma {:induction false} NamedTakes(c: Config, s: Section, name: string, f: Flow, p: Segment, conn: nat)
    ensures Taken(RulesNamed(c, s, name), f, p, conn) ==
            if TakesFor(c, s, name, f, p, conn) then Some(SelectorOf(c, name)) else None
  {
    hide StrategyFrom, ProfileFrom, StrategyRules, RuleOf, HasRules, Matches, StrategyCovers, OnTime;
    var rules := RulesNamed(c, s, name);
    var found := c.ZapretStrategyByName(name);
    if found.Some? && c.ZapretProfileByName(found.value.profile).Some? {
      RulesOfStrategy(c, s, name, found.value, c.ZapretProfileByName(found.value.profile).value);
      forall r | r in rules ensures r.selector == SelectorOf(c, name) { RuleSelector(c, s, name, r); }
      TakenOfOne(rules, SelectorOf(c, name), f, p, conn);
      if TakesFor(c, s, name, f, p, conn) {
        TakenIsMatched(c, s, name, rules, f, p, conn);
      } else if r :| r in rules && Matches(r, f, p, conn) {
        MatchIsTaken(c, s, name, r, f, p, conn);
      }
    }
  }

  lemma {:induction false} RuleSelector(c: Config, s: Section, name: string, r: QueueRule)
    requires RuleOf(c, s, name, r)
    ensures r.selector == SelectorOf(c, name)
  {
  }

  // ----- the first strategy decides -----

  /** Strategy k of section i takes the packet. */
  predicate TakesAt(c: Config, ss: seq<Section>, i: nat, k: nat, f: Flow, p: Segment, conn: nat) {
    && i < |ss| && ss[i].action.Zapret? && k < |ss[i].zapretStrategies|
    && TakesFor(c, ss[i], ss[i].zapretStrategies[k], f, p, conn)
  }

  /** It is the first that does: by section, then by the section's list. */
  ghost predicate FirstAt(c: Config, ss: seq<Section>, i: nat, k: nat, f: Flow, p: Segment, conn: nat) {
    && TakesAt(c, ss, i, k, f, p, conn)
    && forall a: nat, b: nat :: TakesAt(c, ss, a, b, f, p, conn) ==> i < a || (i == a && k <= b)
  }

  ghost predicate NobodyTakes(c: Config, ss: seq<Section>, f: Flow, p: Segment, conn: nat) {
    forall i: nat, k: nat :: !TakesAt(c, ss, i, k, f, p, conn)
  }

  /** The first of the names that takes the packet; their number when none does. */
  lemma {:induction false} NamesTake(c: Config, s: Section, names: seq<string>, f: Flow, p: Segment, conn: nat)
    returns (k: nat)
    ensures k <= |names| && forall j :: 0 <= j < k ==> !TakesFor(c, s, names[j], f, p, conn)
    ensures k < |names| ==> TakesFor(c, s, names[k], f, p, conn)
    ensures Taken(RulesOfNames(c, s, names), f, p, conn) ==
            if k < |names| then Some(SelectorOf(c, names[k])) else None
  {
    hide RulesNamed, TakesFor, Taken, SelectorOf;
    if names == [] {
      NoneTaken(f, p, conn);
      return 0;
    }
    var front, last := names[..|names| - 1], names[|names| - 1];
    k := NamesTake(c, s, front, f, p, conn);
    TakenConcat(RulesOfNames(c, s, front), RulesNamed(c, s, last), f, p, conn);
    NamedTakes(c, s, last, f, p, conn);
    if k == |front| && !TakesFor(c, s, last, f, p, conn) { k := |names|; }
  }

  lemma {:induction false} NoneTaken(f: Flow, p: Segment, conn: nat)
    ensures Taken([], f, p, conn) == None
  {
  }

  /** The first strategy of the first section, or none. */
  lemma {:induction false} SectionsTake(c: Config, ss: seq<Section>, f: Flow, p: Segment, conn: nat)
    returns (i: nat, k: nat)
    ensures FirstAt(c, ss, i, k, f, p, conn) || NobodyTakes(c, ss, f, p, conn)
    ensures Taken(RulesOfSections(c, ss), f, p, conn) ==
            if NobodyTakes(c, ss, f, p, conn) then None
            else Some(SelectorOf(c, ss[i].zapretStrategies[k]))
  {
    hide RulesOfNames, TakesFor, Taken, SelectorOf;
    i, k := 0, 0;
    if ss == [] {
      NoneTaken(f, p, conn);
      return;
    }
    var n := |ss| - 1;
    var front, s := ss[..n], ss[n];
    i, k := SectionsTake(c, front, f, p, conn);
    FrontTakes(c, ss, front, f, p, conn);
    var more := if s.action.Zapret? then RulesOfNames(c, s, s.zapretStrategies) else [];
    TakenConcat(RulesOfSections(c, front), more, f, p, conn);
    NoneTaken(f, p, conn);
    if FirstAt(c, front, i, k, f, p, conn) {
      assert TakesAt(c, front, i, k, f, p, conn);
      assert FirstAt(c, ss, i, k, f, p, conn);
    } else if s.action.Zapret? {
      var m := NamesTake(c, s, s.zapretStrategies, f, p, conn);
      if m < |s.zapretStrategies| {
        i, k := n, m;
        assert TakesAt(c, ss, n, m, f, p, conn);
      }
    }
  }

  lemma {:induction false} FrontTakes(c: Config, ss: seq<Section>, front: seq<Section>, f: Flow, p: Segment, conn: nat)
    requires ss != [] && front == ss[..|ss| - 1]
    ensures forall i: nat, k: nat :: i < |front| ==>
              (TakesAt(c, ss, i, k, f, p, conn) <==> TakesAt(c, front, i, k, f, p, conn))
    ensures forall i: nat, k: nat :: TakesAt(c, front, i, k, f, p, conn) ==> i < |front|
  {
    hide TakesFor;
  }

  /** Enabled sections of the configuration. */
  ghost predicate SectionsOf(c: Config, ordered: seq<Section>) {
    forall i :: 0 <= i < |ordered| ==> ordered[i] in c.sections && ordered[i].enabled
  }

  /** The rules of the postrouting chain. */
  function QueueRules(c: Config, ordered: seq<Section>): seq<QueueRule> {
    if ChainWritten(c) then RulesOfSections(c, ordered) else []
  }

  /** A packet is handed to the first strategy that takes it, or to none. */
  ghost predicate FirstDecides(c: Config, ordered: seq<Section>, rules: seq<QueueRule>, f: Flow, p: Segment,
      conn: nat)
  {
    && (forall i: nat, k: nat :: FirstAt(c, ordered, i, k, f, p, conn) ==>
          Taken(rules, f, p, conn) == Some(SelectorOf(c, ordered[i].zapretStrategies[k])))
    && (Taken(rules, f, p, conn).None? <==> NobodyTakes(c, ordered, f, p, conn))
  }

  lemma {:induction false} ChainDecides(c: Config, ordered: seq<Section>, f: Flow, p: Segment, conn: nat)
    requires SectionsOf(c, ordered)
    ensures FirstDecides(c, ordered, QueueRules(c, ordered), f, p, conn)
  {
    hide TakesFor, Taken, ChainWritten, RulesOfSections, SelectorOf;
    if ChainWritten(c) {
      var i, k := SectionsTake(c, ordered, f, p, conn);
    } else {
      NoneTaken(f, p, conn);
      UnwrittenTakesNothing(c, ordered, f, p, conn);
    }
  }

  lemma {:induction false} UnwrittenTakesNothing(c: Config, ordered: seq<Section>, f: Flow, p: Segment, conn: nat)
    requires SectionsOf(c, ordered) && !ChainWritten(c)
    ensures NobodyTakes(c, ordered, f, p, conn)
  {
    hide ChainWritten, StrategyQueues, OnTime;
    forall i: nat, k: nat ensures !TakesAt(c, ordered, i, k, f, p, conn) {
      if TakesAt(c, ordered, i, k, f, p, conn) {
        assert Queueing(c, ordered[i], f.proto, f.port, Some(f.device))(ordered[i].zapretStrategies[k]);
        QueuedIsWritten(c, ordered[i], f.proto, f.port, Some(f.device));
      }
    }
  }

  /** The written chain hands every packet to the first strategy that takes it. */
  method WriteQueueChain(c: Config, ordered: seq<Section>) returns (rules: seq<QueueRule>)
    requires SectionsOf(c, ordered)
    ensures forall f, p, conn :: FirstDecides(c, ordered, rules, f, p, conn)
  {
    hide FirstDecides, ChainWritten;
    rules := WritePostrouting(c, ordered);
    forall f, p, conn ensures FirstDecides(c, ordered, rules, f, p, conn) {
      ChainDecides(c, ordered, f, p, conn);
    }
  }

  // ----- a whole connection -----

  /** The selector in the connection's mark behind the packets. */
  function Held(rules: seq<QueueRule>, f: Flow, ps: seq<Segment>): nat {
    if ps == [] then 0
    else
      var was := Held(rules, f, ps[..|ps| - 1]);
      match Taken(rules, f, ps[|ps| - 1], was)
      case Some(selector) => selector
      case None => was
  }

  /** What happens to packet n. */
  function TakenAt(rules: seq<QueueRule>, f: Flow, ps: seq<Segment>, n: nat): Option<nat>
    requires n < |ps|
  {
    Taken(rules, f, ps[n], Held(rules, f, ps[..n]))
  }

  /** Only the strategy that the connection belongs to takes anything. */
  lemma {:induction false} OnlyTheOwner(rules: seq<QueueRule>, f: Flow, p: Segment, conn: nat)
    requires conn != 0
    ensures Taken(rules, f, p, conn).Some? ==> Taken(rules, f, p, conn) == Some(conn)
  {
    if rules != [] { OnlyTheOwner(rules[1..], f, p, conn); }
  }

  lemma {:induction false} HeldStays(rules: seq<QueueRule>, f: Flow, ps: seq<Segment>, n: nat)
    requires n <= |ps| && Held(rules, f, ps[..n]) != 0
    ensures Held(rules, f, ps) == Held(rules, f, ps[..n])
  {
    hide Taken;
    if n < |ps| {
      var front := ps[..|ps| - 1];
      assert front[..n] == ps[..n];
      HeldStays(rules, f, front, n);
      OnlyTheOwner(rules, f, ps[|ps| - 1], Held(rules, f, front));
    } else {
      assert ps[..n] == ps;
    }
  }

  /** Some zapret section lists the strategy, and there it takes the packet. */
  predicate TakenBy(c: Config, ordered: seq<Section>, name: string, f: Flow, p: Segment) {
    exists i :: 0 <= i < |ordered| && ordered[i].action.Zapret? && name in ordered[i].zapretStrategies
                && Takes(c, ordered[i], name, f, p)
  }

  /** Who takes a packet of a connection that belongs to strategy k. */
  lemma {:induction false} OwnerTakes(c: Config, apps: seq<ZapretCompiler.Application>,
      library: map<string, ZapretCompiler.Candidate>, starts: seq<nat>, base: seq<ZapretStrategy>,
      ordered: seq<Section>, f: Flow, p: Segment, k: nat)
    requires ZapretCompiler.HoldsCompiled(c, apps, library, starts, base) && k < |base|
    requires SectionsOf(c, ordered) && base[k].selectorMark != 0
    ensures Taken(QueueRules(c, ordered), f, p, base[k].selectorMark) ==
            if TakenBy(c, ordered, base[k].name, f, p) then Some(base[k].selectorMark) else None
  {
    hide ZapretCompiler.HoldsCompiled, Takes, Taken, QueueRules, SectionsOf, StrategyFrom;
    var conn := base[k].selectorMark;
    var rules := QueueRules(c, ordered);
    ChainDecides(c, ordered, f, p, conn);
    OnlyTheOwner(rules, f, p, conn);
    if TakenBy(c, ordered, base[k].name, f, p) {
      var i :| 0 <= i < |ordered| && ordered[i].action.Zapret? && base[k].name in ordered[i].zapretStrategies
               && Takes(c, ordered[i], base[k].name, f, p);
      var m :| 0 <= m < |ordered[i].zapretStrategies| && ordered[i].zapretStrategies[m] == base[k].name;
      TakingResolves(c, ordered[i], base[k].name, f, p);
      ZapretCompiler.SelectorNames(c, apps, library, starts, base, base[k].name, k);
      assert TakesAt(c, ordered, i, m, f, p, conn);
    } else {
      forall i: nat, m: nat ensures !TakesAt(c, ordered, i, m, f, p, conn) {
        if TakesAt(c, ordered, i, m, f, p, conn) {
          var name := ordered[i].zapretStrategies[m];
          TakingResolves(c, ordered[i], name, f, p);
          ZapretCompiler.SelectorNames(c, apps, library, starts, base, name, k);
        }
      }
    }
  }

  lemma {:induction false} TakingResolves(c: Config, s: Section, name: string, f: Flow, p: Segment)
    requires Takes(c, s, name, f, p)
    ensures c.ZapretStrategyByName(name).Some?
  {
  }

  lemma {:induction false} SelectorsCount(c: Config, apps: seq<ZapretCompiler.Application>,
      library: map<string, ZapretCompiler.Candidate>, starts: seq<nat>, base: seq<ZapretStrategy>, k: nat)
    requires ZapretCompiler.HoldsCompiled(c, apps, library, starts, base) && k < |base|
    ensures base[k].selectorMark != 0
  {
    ZapretCompiler.SelectorOf(apps, starts, c.zapretProfiles, base, k);
  }

  /**
    Over any run of packets a connection stays with one strategy: once strategy k
    took a packet, every later one is taken by k alone, and exactly when k takes it.
  */
  lemma {:induction false} StaysWithOne(c: Config, apps: seq<ZapretCompiler.Application>,
      library: map<string, ZapretCompiler.Candidate>, starts: seq<nat>, base: seq<ZapretStrategy>,
      ordered: seq<Section>, f: Flow, ps: seq<Segment>, n: nat, m: nat, k: nat)
    requires ZapretCompiler.HoldsCompiled(c, apps, library, starts, base) && SectionsOf(c, ordered)
    requires n < m < |ps| && k < |base|
    requires TakenAt(QueueRules(c, ordered), f, ps, n) == Some(base[k].selectorMark)
    ensures TakenAt(QueueRules(c, ordered), f, ps, m) ==
            if TakenBy(c, ordered, base[k].name, f, ps[m]) then Some(base[k].selectorMark) else None
  {
    hide ZapretCompiler.HoldsCompiled, Taken, QueueRules, TakenBy;
    var rules := QueueRules(c, ordered);
    SelectorsCount(c, apps, library, starts, base, k);
    var upTo := ps[..n + 1];
    assert upTo[..n] == ps[..n];
    assert Held(rules, f, upTo) == base[k].selectorMark;
    assert ps[..m][..n + 1] == upTo;
    HeldStays(rules, f, ps[..m], n + 1);
    OwnerTakes(c, apps, library, starts, base, ordered, f, ps[m], k);
  }
}
