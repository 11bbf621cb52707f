/**
  The two predictors against each other: tracing a destination through the
  provider lists, and classifying it by the nft sets that those lists fill.
*/
module Tracing {
  import opened Text
  import opened Config
  import opened Checker
  import StableSort

  /** The first section of a list that lives. */
  function FirstLive(ss: seq<Section>, live: Section -> bool): Option<Section> {
    if ss == [] then None
    else
      var was, s := FirstLive(ss[..|ss| - 1], live), ss[|ss| - 1];
      if was.None? && live(s) then Some(s) else was
  }

  /** In the trace: enabled, with a matching provider, and not out of scope. */
  function Traced(c: Config, matches: set<string>, six: bool, f: Flow): Section -> bool {
    (s: Section) => s.enabled && s.name in matches && !QueryScope(c, s, six, f).Skip?
  }

  /** In the classifier: considered, and not out of scope. */
  function Classified(c: Config, family: Family, sets: set<string>, f: Flow): Section -> bool {
    (s: Section) => Considers(c, s, family, sets) && !Scope(c, s, f).Skip?
  }

  /** The trace is settled by the first live section, one way or the other. */
  lemma {:induction false} TraceIsFirst(c: Config, ss: seq<Section>, matches: set<string>, six: bool, f: Flow)
    ensures var t, d := TraceSections(c, ss, matches, six, f), FirstLive(ss, Traced(c, matches, six, f));
            match d
            case None => t.action == By(Direct) && t.section == "" && !t.uncertain && !t.terminal
            case Some(s) =>
              if QueryScope(c, s, six, f).Conditional? then t.action.Unclear? && t.uncertain && !t.terminal
              else
                && t.action == ActionFor(s, QueryScope(c, s, six, f)) && t.section == s.name
                && t.terminal && !t.uncertain
  {
    hide QueryScope;
    if ss != [] {
      TraceIsFirst(c, ss[..|ss| - 1], matches, six, f);
      NotShadowed(c, ss[|ss| - 1], six, f);
    }
  }

  lemma {:induction false} NotShadowed(c: Config, s: Section, six: bool, f: Flow)
    ensures !QueryScope(c, s, six, f).Shadowed?
  {
    hide Scope;
    ScopeStatuses(c, s, f);
  }

  /** So is the scan. */
  lemma {:induction false} ScanIsFirst(c: Config, ss: seq<Section>, family: Family, sets: set<string>, f: Flow)
    ensures var scan, d := ScanSections(c, ss, family, sets, f), FirstLive(ss, Classified(c, family, sets, f));
            scan.chosen == d && scan.action == (if d.Some? then ActionFor(d.value, Scope(c, d.value, f)) else Default)
  {
    hide Scope, Considers;
    if ss != [] { ScanIsFirst(c, ss[..|ss| - 1], family, sets, f); }
  }

  lemma {:induction false} LiveMember(ss: seq<Section>, live: Section -> bool)
    ensures var d := FirstLive(ss, live);
            && (d.Some? ==> d.value in ss && live(d.value))
            && (d.None? ==> forall i :: 0 <= i < |ss| ==> !live(ss[i]))
  {
    if ss != [] { LiveMember(ss[..|ss| - 1], live); }
  }

  /** Dropping sections that cannot live changes nothing. */
  lemma {:induction false} LiveFiltered(ss: seq<Section>, live: Section -> bool, keep: Section -> bool)
    requires forall s :: live(s) ==> keep(s)
    ensures FirstLive(StableSort.Filter(ss, keep), live) == FirstLive(ss, live)
  {
    if ss != [] {
      var front, s := ss[..|ss| - 1], ss[|ss| - 1];
      LiveFiltered(front, live, keep);
      if keep(s) {
        var kept := StableSort.Filter(front, keep);
        assert (kept + [s])[..|kept|] == kept;
      }
    }
  }

  /** Two predicates that agree on a list pick the same section. */
  lemma {:induction false} LiveSame(ss: seq<Section>, a: Section -> bool, b: Section -> bool)
    requires forall s :: s in ss ==> a(s) == b(s)
    ensures FirstLive(ss, a) == FirstLive(ss, b)
  {
    if ss != [] { LiveSame(ss[..|ss| - 1], a, b); }
  }

  lemma {:induction false} SameInsertion(ss: seq<Section>, s: Section,
      a: Section -> StableSort.Key, b: Section -> StableSort.Key)
    requires forall x :: x in ss ==> (StableSort.Le(a(x), a(s)) <==> StableSort.Le(b(x), b(s)))
    ensures StableSort.Insert(ss, s, a) == StableSort.Insert(ss, s, b)
  {
    if ss != [] { SameInsertion(ss[..|ss| - 1], s, a, b); }
  }

  /** Keys that compare alike sort alike. */
  lemma {:induction false} SameSorting(ss: seq<Section>, a: Section -> StableSort.Key, b: Section -> StableSort.Key)
    requires forall x, y :: x in ss && y in ss ==> (StableSort.Le(a(x), a(y)) <==> StableSort.Le(b(x), b(y)))
    ensures StableSort.Sort(ss, a) == StableSort.Sort(ss, b)
  {
    if ss != [] {
      var front, s := ss[..|ss| - 1], ss[|ss| - 1];
      SameSorting(front, a, b);
      SortedMembers(front, a);
      SameInsertion(StableSort.Sort(front, a), s, a, b);
    }
  }

  lemma {:induction false} SortedMembers(ss: seq<Section>, key: Section -> StableSort.Key)
    ensures forall s :: s in StableSort.Sort(ss, key) <==> s in ss
  {
    if ss != [] {
      SortedMembers(ss[..|ss| - 1], key);
      StableSort.InsertMembers(StableSort.Sort(ss[..|ss| - 1], key), ss[|ss| - 1], key);
      assert ss == ss[..|ss| - 1] + [ss[|ss| - 1]];
    }
  }

  function Ranked(): Section -> bool { (s: Section) => Rank(s) == 2 }

  /** For sections outside the global sets, both orders are by priority alone. */
  lemma {:induction false} SameFirst(c: Config, live: Section -> bool)
    requires forall s :: live(s) ==> Rank(s) == 2
    ensures FirstLive(StableSort.Sort(c.sections, RankKey()), live) ==
        FirstLive(StableSort.Sort(c.sections, Key()), live)
  {
    var kept := StableSort.Filter(c.sections, Ranked());
    StableSort.FilterMembers(c.sections, Ranked());
    SameSorting(kept, RankKey(), Key());
    LiveFiltered(StableSort.Sort(c.sections, RankKey()), live, Ranked());
    LiveFiltered(StableSort.Sort(c.sections, Key()), live, Ranked());
    StableSort.FilterCommutesWithSort(c.sections, RankKey(), Ranked());
    StableSort.FilterCommutesWithSort(c.sections, Key(), Ranked());
  }

  /** In rank order, the first live section ranks no higher than any other. */
  lemma {:induction false} FirstRanksLowest(ss: seq<Section>, live: Section -> bool, i: nat)
    requires StableSort.Ordered(ss, RankKey()) && i < |ss| && live(ss[i])
    ensures var d := FirstLive(ss, live); d.Some? && live(d.value) && d.value in ss && Rank(d.value) <= Rank(ss[i])
  {
    var n := |ss| - 1;
    LiveMember(ss, live);
    if i < n {
      FirstRanksLowest(ss[..n], live, i);
    } else if FirstLive(ss[..n], live).Some? {
      LiveMember(ss[..n], live);
      var d := FirstLive(ss[..n], live).value;
      var k :| 0 <= k < n && ss[..n][k] == d;
      assert StableSort.Le(RankKey()(ss[k]), RankKey()(ss[n]));
    }
  }

  // ----- the sets are those the providers fill -----

  /**
    In a routed family, what a section's providers list is in its set, and the
    set of a section outside the global ones is its own and holds nothing else.
    In a family that is not routed there are no sets.
  */
  ghost predicate Filled(c: Config, family: Family, sets: set<string>, matches: set<string>) {
    if c.Routes(family) then
      forall s :: s in c.sections && s.enabled ==>
        && (s.name in matches ==> In(sets, s.NFTSet(family)))
        && (In(sets, s.NFTSet(family)) && Rank(s) == 2 ==> s.name in matches)
    else !In(sets, "reject" + Suffix(family)) && !In(sets, "direct" + Suffix(family))
  }

  /** Some enabled section of that action has a provider that lists the destination. */
  ghost predicate Listed(c: Config, matches: set<string>, action: Action) {
    exists s :: s in c.sections && s.enabled && s.action == action && s.name in matches
  }

  /** What is in a global set was listed by some enabled section of that action; such sections share the set. */
  ghost predicate Owned(c: Config, family: Family, sets: set<string>, matches: set<string>) {
    && (In(sets, "reject" + Suffix(family)) ==> Listed(c, matches, Reject))
    && (In(sets, "direct" + Suffix(family)) ==> Listed(c, matches, Direct))
  }

  predicate Bypassed(family: Family, sets: set<string>) {
    In(sets, "bypass" + Suffix(family)) || "proxy_server_bypass" + Suffix(family) in sets
  }

  lemma {:induction false} GlobalSets(s: Section, family: Family)
    ensures s.action.Reject? ==> s.NFTSet(family) == "reject" + Suffix(family)
    ensures s.action.Direct? ==> s.NFTSet(family) == "direct" + Suffix(family)
  {
  }

  /** With a matching reject section, or a direct one and no reject section, that is the trace. */
  lemma {:induction false} GlobalTraced(c: Config, matches: set<string>, six: bool, f: Flow, s: Section)
    requires s in c.sections && s.enabled && s.name in matches
    requires s.action.Reject? || (s.action.Direct? && !Listed(c, matches, Reject))
    ensures Trace(c, matches, six, false, f).action == By(s.action)
  {
    hide Scope, TraceSections, StableSort.Sort, FirstLive, StableSort.Ordered;
    var ss, live := StableSort.Sort(c.sections, RankKey()), Traced(c, matches, six, f);
    SortedMembers(c.sections, RankKey());
    StableSort.SortOrdered(c.sections, RankKey());
    TraceIsFirst(c, ss, matches, six, f);
    GlobalScope(c, s, six, f);
    assert live(s);
    var i :| 0 <= i < |ss| && ss[i] == s;
    FirstRanksLowest(ss, live, i);
    GlobalScope(c, FirstLive(ss, live).value, six, f);
  }

  lemma {:induction false} GlobalScope(c: Config, s: Section, six: bool, f: Flow)
    ensures s.action.Reject? || s.action.Direct? ==> QueryScope(c, s, six, f) == Matched
  {
  }

  /** Outside the global sets the two look at the same sections. */
  lemma {:induction false} SameLive(c: Config, family: Family, sets: set<string>, matches: set<string>, six: bool,
      f: Flow, s: Section)
    requires c.Routes(family) && Filled(c, family, sets, matches) && (six ==> family.V6?) && s in c.sections
    requires !In(sets, "reject" + Suffix(family)) && !In(sets, "direct" + Suffix(family))
    ensures Traced(c, matches, six, f)(s) == Classified(c, family, sets, f)(s)
    ensures Classified(c, family, sets, f)(s) ==> Rank(s) == 2 && QueryScope(c, s, six, f) == Scope(c, s, f)
  {
    hide Scope, In;
    GlobalSets(s, family);
  }

  /** The sections of the configuration that are in neither global set. */
  function Beside(c: Config, live: Section -> bool): Section -> bool {
    (s: Section) => s in c.sections && live(s)
  }

  lemma {:induction false} SectionsTraced(c: Config, family: Family, sets: set<string>, matches: set<string>, six: bool,
      f: Flow)
    requires c.Routes(family) && Filled(c, family, sets, matches) && (six ==> family.V6?)
    requires !In(sets, "reject" + Suffix(family)) && !In(sets, "direct" + Suffix(family))
    ensures var d := FirstLive(StableSort.Sort(c.sections, Key()), Classified(c, family, sets, f));
            && FirstLive(StableSort.Sort(c.sections, RankKey()), Traced(c, matches, six, f)) == d
            && (d.Some? ==> QueryScope(c, d.value, six, f) == Scope(c, d.value, f))
  {
    hide Scope, In, QueryScope, StableSort.Sort, FirstLive, Filled;
    var a, b := Traced(c, matches, six, f), Classified(c, family, sets, f);
    var beside := Beside(c, b);
    forall s | s in c.sections
      ensures a(s) == b(s) && (b(s) ==> Rank(s) == 2 && QueryScope(c, s, six, f) == Scope(c, s, f))
    {
      SameLive(c, family, sets, matches, six, f, s);
    }
    SortedMembers(c.sections, RankKey());
    SortedMembers(c.sections, Key());
    LiveSame(StableSort.Sort(c.sections, RankKey()), a, beside);
    LiveSame(StableSort.Sort(c.sections, Key()), b, beside);
    SameFirst(c, beside);
    LiveMember(StableSort.Sort(c.sections, Key()), b);
  }

  /** One answer of both; what the classifier finds in no set goes direct. */
  predicate Agree(t: RoutingTrace, r: IPRoute) {
    t.action == if r.action.Default? then By(Direct) else r.action
  }

  /** The traced query leads direct: nothing is in scope, or what is leaves it alone. */
  predicate LeadsDirect(c: Config, matches: set<string>, six: bool, f: Flow) {
    var d := FirstLive(StableSort.Sort(c.sections, RankKey()), Traced(c, matches, six, f));
    d.Some? ==> ActionFor(d.value, QueryScope(c, d.value, six, f)) == By(Direct)
  }

  /**
    For every flow, full or partial, and for an address (six says which kind) or
    a name that has an address of the family: when the sets hold what the
    providers list, tracing and classifying give the same action exactly when
    no bypass set holds the address and the family is routed or the trace leads
    direct. A definite answer outside the global sets names the same section.
  */
  lemma {:induction false} TraceAgreesWithClassifier(c: Config, family: Family, sets: set<string>,
      matches: set<string>, six: bool, f: Flow)
    requires Filled(c, family, sets, matches) && Owned(c, family, sets, matches) && (six ==> family.V6?)
    ensures var t, r := Trace(c, matches, six, false, f), Classify(c, Some(family), sets, f);
            && (Agree(t, r) <==>
                  !Bypassed(family, sets) && (c.Routes(family) || LeadsDirect(c, matches, six, f)))
            && (!Bypassed(family, sets) && c.Routes(family) && !t.action.Unclear?
                && !In(sets, "reject" + Suffix(family)) && !In(sets, "direct" + Suffix(family)) ==>
                  t.section == r.section)
  {
    hide Scope, TraceSections, ScanSections, In, StableSort.Sort, FirstLive, QueryScope, Filled, Section.NFTSet;
    var t := Trace(c, matches, six, false, f);
    TraceIsFirst(c, StableSort.Sort(c.sections, RankKey()), matches, six, f);
    NeverBypassing(c, matches, six, f);
    if !c.Routes(family) {
      UnroutedIsDefault(c, family, sets, matches, f);
      TraceLeadsDirect(c, matches, six, f);
    } else if In(sets, "reject" + Suffix(family)) {
      var s :| s in c.sections && s.enabled && s.action == Reject && s.name in matches;
      GlobalTraced(c, matches, six, f, s);
    } else if In(sets, "direct" + Suffix(family)) {
      var s :| s in c.sections && s.enabled && s.action == Direct && s.name in matches;
      NotRejected(c, family, sets, matches);
      GlobalTraced(c, matches, six, f, s);
    } else {
      SectionsTraced(c, family, sets, matches, six, f);
      ScanIsFirst(c, StableSort.Sort(c.sections, Key()), family, sets, f);
      SectionActions(c, FirstLive(StableSort.Sort(c.sections, Key()), Classified(c, family, sets, f)), f);
    }
  }

  /** A section's answer is unclear exactly when its scope is conditional. */
  lemma {:induction false} SectionActions(c: Config, d: Option<Section>, f: Flow)
    ensures d.Some? ==> (ActionFor(d.value, Scope(c, d.value, f)).Unclear? <==> Scope(c, d.value, f).Conditional?)
    ensures d.Some? ==> !ActionFor(d.value, Scope(c, d.value, f)).Default?
  {
    hide Scope;
  }

  lemma {:induction false} NeverBypassing(c: Config, matches: set<string>, six: bool, f: Flow)
    ensures !Trace(c, matches, six, false, f).action.Bypassing? && !Trace(c, matches, six, false, f).action.Default?
  {
    hide TraceSections, StableSort.Sort, FirstLive, QueryScope;
    TraceIsFirst(c, StableSort.Sort(c.sections, RankKey()), matches, six, f);
  }

  lemma {:induction false} TraceLeadsDirect(c: Config, matches: set<string>, six: bool, f: Flow)
    ensures LeadsDirect(c, matches, six, f) <==> Trace(c, matches, six, false, f).action == By(Direct)
  {
    hide TraceSections, StableSort.Sort, FirstLive, QueryScope;
    TraceIsFirst(c, StableSort.Sort(c.sections, RankKey()), matches, six, f);
  }

  lemma {:induction false} NotRejected(c: Config, family: Family, sets: set<string>, matches: set<string>)
    requires c.Routes(family) && Filled(c, family, sets, matches) && !In(sets, "reject" + Suffix(family))
    ensures !Listed(c, matches, Reject)
  {
    hide In;
    forall s | s in c.sections && s.enabled && s.action == Reject ensures s.name !in matches { GlobalSets(s, family); }
  }

  /** No section is looked at in a family that is not routed. */
  lemma {:induction false} UnroutedIsDefault(c: Config, family: Family, sets: set<string>, matches: set<string>,
      f: Flow)
    requires !c.Routes(family) && Filled(c, family, sets, matches)
    ensures !Bypassed(family, sets) ==> Classify(c, Some(family), sets, f).action.Default?
    ensures Bypassed(family, sets) ==> Classify(c, Some(family), sets, f).action.Bypassing?
  {
    hide In, ScanSections, StableSort.Sort, FirstLive, Scope, Section.NFTSet;
    var ss := StableSort.Sort(c.sections, Key());
    ScanIsFirst(c, ss, family, sets, f);
    LiveMember(ss, Classified(c, family, sets, f));
  }

  /** An address of a family that is not routed leads direct exactly when no reject section lists it. */
  lemma {:induction false} UnroutedLeadsDirect(c: Config, matches: set<string>, f: Flow)
    requires !c.IPv6Routed()
    ensures LeadsDirect(c, matches, true, f) <==> !Listed(c, matches, Reject)
  {
    hide TraceSections, StableSort.Sort, FirstLive, Scope, LeadsDirect;
    TraceLeadsDirect(c, matches, true, f);
    if Listed(c, matches, Reject) {
      var s :| s in c.sections && s.enabled && s.action == Reject && s.name in matches;
      GlobalTraced(c, matches, true, f, s);
    } else {
      var ss := StableSort.Sort(c.sections, RankKey());
      TraceIsFirst(c, ss, matches, true, f);
      SortedMembers(c.sections, RankKey());
      LiveMember(ss, Traced(c, matches, true, f));
      forall s: Section ensures s.action.Direct? ==> QueryScope(c, s, true, f) == Matched {
        GlobalScope(c, s, true, f);
      }
    }
  }

  /**
    For an address: the two agree exactly when no bypass set holds it and it is
    routed or no reject section lists it.
  */
  lemma {:induction false} AddressesAgreeExactly(c: Config, family: Family, sets: set<string>, matches: set<string>,
      f: Flow)
    requires Filled(c, family, sets, matches) && Owned(c, family, sets, matches)
    ensures Agree(Trace(c, matches, family.V6?, false, f), Classify(c, Some(family), sets, f)) <==>
              !Bypassed(family, sets) && (c.Routes(family) || !Listed(c, matches, Reject))
  {
    hide Trace, Classify, Filled, Owned, Bypassed, LeadsDirect, Listed;
    TraceAgreesWithClassifier(c, family, sets, matches, family.V6?, f);
    if !c.Routes(family) { UnroutedLeadsDirect(c, matches, f); }
  }

  /** Without IPv6, an address that a reject section lists is traced to a refusal and classified as in no set. */
  lemma {:induction false} UnroutedRejectDiverges(c: Config, matches: set<string>, f: Flow, s: Section)
    requires !c.IPv6Routed() && s in c.sections && s.enabled && s.action == Reject && s.name in matches
    ensures Filled(c, V6, {}, matches) && Owned(c, V6, {}, matches)
    ensures Trace(c, matches, true, false, f).action == By(Reject)
    ensures Classify(c, Some(V6), {}, f).action.Default?
  {
    hide Trace, Classify;
    GlobalTraced(c, matches, true, f, s);
    UnroutedIsDefault(c, V6, {}, matches, f);
  }

  // ----- the steps that are reported -----

  function Matching(matches: set<string>): Section -> bool { (s: Section) => s.enabled && s.name in matches }

  /**
    One step for each enabled section that matches, in order; skipped where the
    section is out of scope, shadowed only behind a match, and at most one match,
    which is the trace's section.
  */
  ghost predicate StepsTell(c: Config, told: seq<Section>, six: bool, f: Flow, t: RoutingTrace) {
    && |t.steps| == |told|
    && (forall i :: 0 <= i < |told| ==> t.steps[i].section == told[i].name && t.steps[i].priority == told[i].priority)
    && (forall i :: 0 <= i < |told| ==> (t.steps[i].status.Skip? <==> QueryScope(c, told[i], six, f).Skip?))
    && (forall i :: 0 <= i < |told| && t.steps[i].status.Matched? ==>
          t.terminal && t.section == told[i].name && forall k :: 0 <= k < i ==> t.steps[k].status.Skip?)
    && (forall i :: 0 <= i < |told| && t.steps[i].status.Shadowed? ==>
          exists k :: 0 <= k < i && t.steps[k].status.Matched?)
    && (t.terminal <==> exists i :: 0 <= i < |told| && t.steps[i].status.Matched?)
    && (!t.terminal && !t.uncertain ==> forall i :: 0 <= i < |told| ==> t.steps[i].status.Skip?)
  }

  lemma {:induction false} TurnTells(c: Config, told: seq<Section>, s: Section, six: bool, f: Flow, was: RoutingTrace)
    requires StepsTell(c, told, six, f, was) && !(was.terminal && was.uncertain)
    ensures StepsTell(c, told + [s], six, f, TraceTurn(s, QueryScope(c, s, six, f), was))
    ensures var t := TraceTurn(s, QueryScope(c, s, six, f), was); !(t.terminal && t.uncertain)
  {
    hide QueryScope;
    var t, n := TraceTurn(s, QueryScope(c, s, six, f), was), |told|;
    assert forall i :: 0 <= i < n ==> t.steps[i] == was.steps[i] && (told + [s])[i] == told[i];
    if was.terminal {
      var i :| 0 <= i < n && was.steps[i].status.Matched?;
      assert t.steps[i].status.Matched?;
    }
    assert t.terminal && !was.terminal ==> t.steps[n].status.Matched?;
  }

  /** The steps of a trace. */
  lemma {:induction false} TraceSteps(c: Config, ss: seq<Section>, matches: set<string>, six: bool, f: Flow)
    ensures var t := TraceSections(c, ss, matches, six, f);
            StepsTell(c, StableSort.Filter(ss, Matching(matches)), six, f, t) && !(t.terminal && t.uncertain)
  {
    hide QueryScope, StepsTell, TraceTurn;
    if ss == [] {
      assert StepsTell(c, [], six, f, RoutingTrace(By(Direct), "", false, false, [])) by { NoSteps(c, six, f); }
    } else {
      var front, s := ss[..|ss| - 1], ss[|ss| - 1];
      TraceSteps(c, front, matches, six, f);
      if s.enabled && s.name in matches {
        TurnTells(c, StableSort.Filter(front, Matching(matches)), s, six, f, TraceSections(c, front, matches, six, f));
      }
    }
  }

  lemma {:induction false} NoSteps(c: Config, six: bool, f: Flow)
    ensures StepsTell(c, [], six, f, RoutingTrace(By(Direct), "", false, false, []))
  {
  }

  function Considered(c: Config, family: Family, sets: set<string>): Section -> bool {
    (s: Section) => Considers(c, s, family, sets)
  }

  /** One step for each section looked at, in order, all skipped but the last if there is a choice, which it is. */
  ghost predicate ScanTells(c: Config, told: seq<Section>, f: Flow, scan: Scan) {
    && |scan.steps| == |told|
    && (forall i :: 0 <= i < |told| ==>
          scan.steps[i] == RoutingStep(told[i].name, told[i].priority, By(told[i].action), Scope(c, told[i], f)))
    && (forall i :: 0 <= i < |told| ==>
          (scan.steps[i].status.Skip? <==> !(scan.chosen.Some? && i == |told| - 1)))
    && (scan.chosen.Some? ==> told != [] && told[|told| - 1] == scan.chosen.value)
  }

  lemma {:induction false} ScanTurnTells(c: Config, told: seq<Section>, s: Section, family: Family, sets: set<string>,
      f: Flow, was: Scan)
    requires ScanTells(c, told, f, was) && was.chosen.None? && Considers(c, s, family, sets)
    ensures ScanTells(c, told + [s], f, ScanTurn(c, s, family, sets, f, was))
  {
    hide Scope, Considers;
    assert forall i :: 0 <= i < |told| ==> (told + [s])[i] == told[i];
  }

  lemma {:induction false} ScanStands(c: Config, s: Section, family: Family, sets: set<string>, f: Flow, was: Scan)
    requires was.chosen.Some? || !Considers(c, s, family, sets)
    ensures ScanTurn(c, s, family, sets, f, was) == was
  {
  }

  /** The steps of a classification: those of the sections up to the chosen one, or of all of them. */
  lemma {:induction false} ScanSteps(c: Config, ss: seq<Section>, family: Family, sets: set<string>, f: Flow)
    returns (n: nat)
    ensures n <= |ss| && (ScanSections(c, ss, family, sets, f).chosen.None? ==> n == |ss|)
    ensures ScanTells(c, StableSort.Filter(ss[..n], Considered(c, family, sets)), f,
                      ScanSections(c, ss, family, sets, f))
  {
    hide Considers, ScanTells, ScanTurn, StableSort.Filter;
    n := 0;
    var keep := Considered(c, family, sets);
    if ss == [] {
      NoScanSteps(c, keep, f);
    } else {
      var front, s := ss[..|ss| - 1], ss[|ss| - 1];
      n := ScanSteps(c, front, family, sets, f);
      assert front[..n] == ss[..n];
      var was := ScanSections(c, front, family, sets, f);
      if was.chosen.Some? {
        ScanStands(c, s, family, sets, f, was);
      } else {
        assert front[..n] == front && front + [s] == ss;
        n := |ss|;
        assert ss[..n] == ss;
        StableSort.FilterSnoc(front, s, keep);
        if Considers(c, s, family, sets) {
          ScanTurnTells(c, StableSort.Filter(front, keep), s, family, sets, f, was);
        } else {
          ScanStands(c, s, family, sets, f, was);
        }
      }
    }
  }

  lemma {:induction false} NoScanSteps(c: Config, keep: Section -> bool, f: Flow)
    ensures ScanTells(c, StableSort.Filter([], keep), f, Scan(None, Default, []))
  {
  }
}
