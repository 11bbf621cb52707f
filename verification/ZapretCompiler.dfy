/**
  Compiling application lists into zapret instances: one strategy and one
  profile for each (application, candidate) pair, holding the WAN devices
  assigned to it, with a selector and a name of its own.
*/
module ZapretCompiler {
  import opened Text
  import opened Config
  import Bits
  import Marks
  import Zapret

  datatype Application = Application(name: string, enabled: bool, assignments: seq<string>)

  datatype Candidate = Candidate(protocols: seq<string>, tcpPorts: string,
      udpPorts: string, tcpPktOut: int, udpPktOut: int)

  datatype CompileError =
    | BadApplication(app: string)
    | NoAssignments(app: string)
    | BadAssignment(app: string, raw: string)
    | MissingCandidate(app: string, candidate: string)
    | TooMany
    | MissingApplication(section: string, app: string)

  const MAX_STRATEGIES := 255

  // ----- names -----

  predicate IsWord(c: char) { 'A' <= c <= 'Z' || 'a' <= c <= 'z' || '0' <= c <= '9' || c == '_' }

  /** Letters, digits and _ . : -, at most fifteen of them. */
  predicate DeviceName(s: string) {
    1 <= |s| <= 15 && forall i :: 0 <= i < |s| ==> IsWord(s[i]) || s[i] in {'.', ':', '-'}
  }

  predicate ApplicationName(s: string) {
    1 <= |s| <= 48 && IsWord(s[0]) && forall i :: 1 <= i < |s| ==> IsWord(s[i]) || s[i] == '-'
  }

  function InstanceName(app: string, n: nat): string { app + "_w" + Itoa(n) }

  /** The last "_w" is where the digits start. */
  lemma {:induction false} NotLonger(a: string, x: string, b: string, y: string)
    requires a + "_w" + x == b + "_w" + y && AllDigits(x)
    ensures |b| <= |a|
  {
    var s := a + "_w" + x;
    assert s[|b| + 1] == (b + "_w" + y)[|b| + 1] == 'w';
    assert |a| < |b| ==> IsDigit(s[|b| + 1]);
  }

  /** An instance name gives back its application and number. */
  lemma {:induction false} InstanceNamesDiffer(a: string, m: nat, b: string, n: nat)
    requires InstanceName(a, m) == InstanceName(b, n)
    ensures a == b && m == n
  {
    var x, y := Itoa(m), Itoa(n);
    var s := InstanceName(a, m);
    NotLonger(a, x, b, y);
    NotLonger(b, y, a, x);
    assert a == s[..|a|] && b == s[..|b|];
    assert x == s[|a| + 2..] && y == s[|b| + 2..];
    DecItoa(m);
    DecItoa(n);
  }

  // ----- assignments -----

  /** strings.Cut at the first equals sign. */
  function Cut(raw: string): Option<(string, string)> {
    if raw == "" then None
    else if raw[0] == '=' then Some(("", raw[1..]))
    else match Cut(raw[1..])
      case None => None
      case Some(p) => Some(([raw[0]] + p.0, p.1))
  }

  predicate WellFormed(raw: string) {
    Cut(raw).Some? && DeviceName(Cut(raw).value.0) && Cut(raw).value.0 != "lo"
  }

  function DeviceOf(raw: string): string { if Cut(raw).Some? then Cut(raw).value.0 else "" }

  function CandidateOf(raw: string): string { if Cut(raw).Some? then Cut(raw).value.1 else "" }

  function DevicesIn(raws: seq<string>): set<string> { set r | r in raws :: DeviceOf(r) }

  function CandidatesIn(raws: seq<string>): set<string> { set r | r in raws :: CandidateOf(r) }

  ghost predicate AssignmentsOk(raws: seq<string>, library: map<string, Candidate>) {
    && (forall i :: 0 <= i < |raws| ==> WellFormed(raws[i]) && CandidateOf(raws[i]) in library)
    && (forall i, j :: 0 <= i < j < |raws| ==> DeviceOf(raws[i]) != DeviceOf(raws[j]))
  }

  ghost predicate ApplicationOk(app: Application, library: map<string, Candidate>) {
    app.enabled ==> app.assignments != [] && AssignmentsOk(app.assignments, library)
  }

  ghost predicate NamesOk(apps: seq<Application>) {
    && (forall i :: 0 <= i < |apps| ==> ApplicationName(apps[i].name))
    && (forall i, j :: 0 <= i < j < |apps| ==> apps[i].name != apps[j].name)
  }

  /** The (application, candidate) pairs of the enabled applications, counted. */
  function Combinations(apps: seq<Application>): nat {
    if apps == [] then 0
    else
      var app := apps[|apps| - 1];
      Combinations(apps[..|apps| - 1]) + if app.enabled then |CandidatesIn(app.assignments)| else 0
  }

  ghost predicate EnabledApplication(apps: seq<Application>, name: string) {
    exists i :: 0 <= i < |apps| && apps[i].name == name && apps[i].enabled
  }

  /** The application names a section uses: its own list, or the strategies of an older configuration. */
  function ApplicationsOf(s: Section): seq<string> {
    match s.zapretApplications
    case Some(names) => names
    case None => s.zapretStrategies
  }

  ghost predicate SectionOk(s: Section, apps: seq<Application>) {
    s.enabled && s.action.Zapret? ==>
      forall i :: 0 <= i < |ApplicationsOf(s)| ==> EnabledApplication(apps, ApplicationsOf(s)[i])
  }

  ghost predicate ApplicationsOk(apps: seq<Application>, library: map<string, Candidate>) {
    && NamesOk(apps) && Combinations(apps) <= MAX_STRATEGIES
    && forall i :: 0 <= i < |apps| ==> ApplicationOk(apps[i], library)
  }

  /** What the compiler accepts. */
  ghost predicate Compilable(apps: seq<Application>, library: map<string, Candidate>, sections: seq<Section>) {
    ApplicationsOk(apps, library) && forall i :: 0 <= i < |sections| ==> SectionOk(sections[i], apps)
  }

  lemma {:induction false} CombinationsGrow(apps: seq<Application>, i: nat)
    requires i < |apps|
    ensures Combinations(apps[..i + 1]) ==
            Combinations(apps[..i]) + (if apps[i].enabled then |CandidatesIn(apps[i].assignments)| else 0)
    ensures Combinations(apps[..i + 1]) <= Combinations(apps)
    decreases |apps| - i
  {
    assert apps[..i + 1][..i] == apps[..i];
    if i + 1 < |apps| {
      CombinationsGrow(apps, i + 1);
    } else {
      assert apps[..i + 1] == apps;
    }
  }

  lemma {:induction false} CandidatesGrow(raws: seq<string>, j: nat)
    requires j < |raws|
    ensures CandidatesIn(raws[..j + 1]) == CandidatesIn(raws[..j]) + {CandidateOf(raws[j])}
    ensures DevicesIn(raws[..j + 1]) == DevicesIn(raws[..j]) + {DeviceOf(raws[j])}
    ensures |CandidatesIn(raws[..j + 1])| <= |CandidatesIn(raws)|
  {
    hide CandidateOf, DeviceOf;
    assert raws[..j + 1] == raws[..j] + [raws[j]];
    assert CandidatesIn(raws[..j + 1]) <= CandidatesIn(raws);
    SubsetCount(CandidatesIn(raws[..j + 1]), CandidatesIn(raws));
  }

  lemma {:induction false} SubsetCount(a: set<string>, b: set<string>)
    requires a <= b
    ensures |a| <= |b|
  {
    assert b == a + (b - a);
  }

  // ----- what compiling one application gives -----

  function Instance(name: string, candidate: string, index: nat): ZapretStrategy {
    ZapretStrategy(name, true, name, candidate, (index + 1) * 0x1_0000, [], "", "", 0, 0)
  }

  /** Strategy i and profile i are a pair of their own, under the application's next number. */
  ghost predicate PairAt(app: string, start: nat, profiles: seq<ZapretProfile>, strategies: seq<ZapretStrategy>,
      i: nat)
    requires start <= i < |profiles| && |strategies| == |profiles|
  {
    var name := InstanceName(app, i - start + 1);
    && strategies[i] == Instance(name, strategies[i].candidate, i)
    && profiles[i] == ZapretProfile(name, true, profiles[i].interfaces, "")
  }

  /** A device is on profile i exactly when it is assigned the candidate of strategy i. */
  ghost predicate Holds(raws: seq<string>, profile: ZapretProfile, strategy: ZapretStrategy) {
    && profile.interfaces != []
    && (forall d :: d in profile.interfaces <==> Assigned(raws, d, strategy.candidate))
    && (forall x, y :: 0 <= x < y < |profile.interfaces| ==> profile.interfaces[x] != profile.interfaces[y])
  }

  predicate Assigned(raws: seq<string>, device: string, candidate: string) {
    exists j :: 0 <= j < |raws| && DeviceOf(raws[j]) == device && CandidateOf(raws[j]) == candidate
  }

  /** The instances from start on are those of the application's assignments. */
  ghost predicate Compiled(app: string, raws: seq<string>, profiles: seq<ZapretProfile>,
      strategies: seq<ZapretStrategy>, start: nat)
  {
    && start <= |profiles| == |strategies| && |profiles| - start == |CandidatesIn(raws)|
    && (forall i :: start <= i < |profiles| ==> PairAt(app, start, profiles, strategies, i))
    && (forall i :: start <= i < |profiles| ==> Holds(raws, profiles[i], strategies[i]))
    && (forall i, k :: start <= i < k < |profiles| ==> strategies[i].candidate != strategies[k].candidate)
    && (forall d, x :: Assigned(raws, d, x) ==> exists i :: start <= i < |profiles| && strategies[i].candidate == x)
  }

  /** The index of each candidate met so far. */
  ghost predicate Grouped(grouped: map<string, nat>, strategies: seq<ZapretStrategy>, start: nat) {
    && (forall x :: x in grouped ==> start <= grouped[x] < |strategies| && strategies[grouped[x]].candidate == x)
    && (forall i :: start <= i < |strategies| ==> strategies[i].candidate in grouped)
  }

  lemma {:induction false} AssignedSnoc(raws: seq<string>, j: nat, d: string, x: string)
    requires j < |raws|
    ensures Assigned(raws[..j + 1], d, x)
        <==> Assigned(raws[..j], d, x) || (d == DeviceOf(raws[j]) && x == CandidateOf(raws[j]))
  {
    hide CandidateOf, DeviceOf;
    var all := raws[..j + 1];
    if Assigned(raws[..j], d, x) {
      var k :| 0 <= k < j && DeviceOf(raws[..j][k]) == d && CandidateOf(raws[..j][k]) == x;
      assert all[k] == raws[..j][k];
    }
    assert all[j] == raws[j];
    if Assigned(all, d, x) {
      var k :| 0 <= k < |all| && DeviceOf(all[k]) == d && CandidateOf(all[k]) == x;
      if k < j { assert raws[..j][k] == all[k]; }
    }
  }

  lemma {:induction false} AssignedIn(raws: seq<string>, d: string, x: string)
    requires Assigned(raws, d, x)
    ensures d in DevicesIn(raws) && x in CandidatesIn(raws)
  {
    hide CandidateOf, DeviceOf;
  }

  /** Another device for a candidate already met. */
  lemma {:induction false} JoinsGroup(app: string, raws: seq<string>, j: nat, profiles: seq<ZapretProfile>,
      strategies: seq<ZapretStrategy>, start: nat, at: nat, now: seq<ZapretProfile>)
    requires j < |raws| && Compiled(app, raws[..j], profiles, strategies, start)
    requires start <= at < |profiles| && strategies[at].candidate == CandidateOf(raws[j])
    requires DeviceOf(raws[j]) !in DevicesIn(raws[..j])
    requires now == profiles[at := profiles[at].(interfaces := profiles[at].interfaces + [DeviceOf(raws[j])])]
    ensures Compiled(app, raws[..j + 1], now, strategies, start)
  {
    hide CandidateOf, DeviceOf, InstanceName, Assigned, CandidatesIn, DevicesIn;
    var was, all := raws[..j], raws[..j + 1];
    CandidatesGrow(raws, j);
    forall d, x
      ensures Assigned(all, d, x) <==> Assigned(was, d, x) || (d == DeviceOf(raws[j]) && x == CandidateOf(raws[j]))
    {
      AssignedSnoc(raws, j, d, x);
    }
    forall d, x | Assigned(was, d, x) ensures d in DevicesIn(was) && x in CandidatesIn(was) { AssignedIn(was, d, x); }
    assert CandidateOf(raws[j]) in CandidatesIn(was) by {
      assert profiles[at].interfaces[0] in profiles[at].interfaces;
    }
    assert CandidatesIn(all) == CandidatesIn(was);
    forall i | start <= i < |now| ensures PairAt(app, start, now, strategies, i) && Holds(all, now[i], strategies[i]) {
      assert PairAt(app, start, profiles, strategies, i);
      assert Holds(was, profiles[i], strategies[i]);
    }
  }

  /** The first device for a candidate. */
  lemma {:induction false} StartsGroup(app: string, raws: seq<string>, j: nat, profiles: seq<ZapretProfile>,
      strategies: seq<ZapretStrategy>, start: nat, name: string, nowP: seq<ZapretProfile>, nowS: seq<ZapretStrategy>)
    requires j < |raws| && Compiled(app, raws[..j], profiles, strategies, start)
    requires forall i :: start <= i < |strategies| ==> strategies[i].candidate != CandidateOf(raws[j])
    requires name == InstanceName(app, |profiles| - start + 1)
    requires nowP == profiles + [ZapretProfile(name, true, [DeviceOf(raws[j])], "")]
    requires nowS == strategies + [Instance(name, CandidateOf(raws[j]), |strategies|)]
    ensures Compiled(app, raws[..j + 1], nowP, nowS, start)
    ensures |nowS| - start <= |CandidatesIn(raws)|
  {
    hide CandidateOf, DeviceOf, InstanceName, Assigned, CandidatesIn, DevicesIn;
    var was, all := raws[..j], raws[..j + 1];
    CandidatesGrow(raws, j);
    forall d, x
      ensures Assigned(all, d, x) <==> Assigned(was, d, x) || (d == DeviceOf(raws[j]) && x == CandidateOf(raws[j]))
    {
      AssignedSnoc(raws, j, d, x);
    }
    assert forall d :: !Assigned(was, d, CandidateOf(raws[j]));
    assert CandidateOf(raws[j]) !in CandidatesIn(was) by { NewCandidate(was, CandidateOf(raws[j])); }
    forall i | start <= i < |nowP| ensures PairAt(app, start, nowP, nowS, i) && Holds(all, nowP[i], nowS[i]) {
      if i < |profiles| {
        assert PairAt(app, start, profiles, strategies, i);
        assert Holds(was, profiles[i], strategies[i]);
      }
    }
    forall d, x | Assigned(all, d, x) ensures exists i :: start <= i < |nowP| && nowS[i].candidate == x {
      if Assigned(was, d, x) {
        var i :| start <= i < |profiles| && strategies[i].candidate == x;
        assert nowS[i].candidate == x;
      } else {
        assert nowS[|strategies|].candidate == x;
      }
    }
  }

  lemma {:induction false} NewCandidate(raws: seq<string>, x: string)
    requires forall d :: !Assigned(raws, d, x)
    ensures x !in CandidatesIn(raws)
  {
    hide CandidateOf, DeviceOf;
    forall i | 0 <= i < |raws| ensures CandidateOf(raws[i]) != x {
      assert Assigned(raws, DeviceOf(raws[i]), CandidateOf(raws[i]));
    }
  }

  // ----- the compiler -----

  /** Where the instances of each application start; the last entry is the end. */
  ghost predicate Layout(apps: seq<Application>, starts: seq<nat>, profiles: seq<ZapretProfile>,
      strategies: seq<ZapretStrategy>)
  {
    && |starts| == |apps| + 1 && starts[0] == 0 && starts[|apps|] == |profiles| == |strategies|
    && (forall a, b :: 0 <= a <= b <= |apps| ==> starts[a] <= starts[b])
    && (forall a :: 0 <= a < |apps| ==> Span(apps[a], profiles, strategies, starts[a], starts[a + 1]))
  }

  /** The instances of one application: those from start to end. */
  ghost predicate Span(app: Application, profiles: seq<ZapretProfile>, strategies: seq<ZapretStrategy>, start: nat,
      end: nat) {
    && start <= end <= |profiles| == |strategies|
    && (app.enabled ==> Compiled(app.name, app.assignments, profiles[..end], strategies[..end], start))
    && (!app.enabled ==> start == end)
  }

  /** The instance names of each enabled application, in order. */
  ghost predicate Instances(apps: seq<Application>, starts: seq<nat>, instances: map<string, seq<string>>)
    requires |starts| == |apps| + 1
  {
    && (forall a :: 0 <= a < |apps| && apps[a].enabled ==>
          && apps[a].name in instances && starts[a] <= starts[a + 1]
          && instances[apps[a].name] == Numbered(apps[a].name, starts[a + 1] - starts[a]))
    && (forall x :: x in instances ==> EnabledApplication(apps, x) && instances[x] != [])
  }

  function Numbered(app: string, n: nat): (r: seq<string>)
    ensures |r| == n
  {
    if n == 0 then [] else Numbered(app, n - 1) + [InstanceName(app, n)]
  }

  /** The part of the configuration that the compiler rewrites. */
  class Compiler {
    const applications: seq<Application>
    const library: map<string, Candidate>
    var sections: seq<Section>
    var profiles: seq<ZapretProfile>
    var strategies: seq<ZapretStrategy>

    constructor (applications: seq<Application>, library: map<string, Candidate>, sections: seq<Section>)
      ensures this.applications == applications && this.library == library && this.sections == sections
    {
      this.applications, this.library, this.sections := applications, library, sections;
      profiles, strategies := [], [];
    }

    /** One assignment whose device and candidate are good: joins the candidate's instance or starts one. */
    method Assign(app: Application, j: nat, grouped: map<string, nat>, names: seq<string>, ghost start: nat)
      returns (after: map<string, nat>, more: seq<string>, full: bool)
      requires j < |app.assignments| && DeviceOf(app.assignments[j]) !in DevicesIn(app.assignments[..j])
      requires Compiled(app.name, app.assignments[..j], profiles, strategies, start)
          && Grouped(grouped, strategies, start)
      requires |strategies| <= MAX_STRATEGIES && |names| == |profiles| - start
      modifies `profiles, `strategies
      ensures full ==> start + |CandidatesIn(app.assignments)| > MAX_STRATEGIES
      ensures !full ==> Compiled(app.name, app.assignments[..j + 1], profiles, strategies, start)
      ensures !full ==> Grouped(after, strategies, start) && |strategies| <= MAX_STRATEGIES
      ensures !full ==> old(profiles[..start]) <= profiles && old(strategies[..start]) <= strategies
      ensures !full ==> |more| == |profiles| - start && more != []
      ensures !full ==> more == names || more == names + [InstanceName(app.name, |names| + 1)]
    {
      hide CandidateOf, DeviceOf, InstanceName, WellFormed, CandidatesIn, DevicesIn, Holds, Assigned;
      full := false;
      var raws := app.assignments;
      var device, candidate := DeviceOf(raws[j]), CandidateOf(raws[j]);
      ghost var wasP, wasS := profiles, strategies;
      if candidate in grouped {
        var index := grouped[candidate];
        profiles := profiles[index := profiles[index].(interfaces := profiles[index].interfaces + [device])];
        JoinsGroup(app.name, raws, j, wasP, wasS, start, index, profiles);
        return grouped, names, false;
      }
      var name := InstanceName(app.name, |names| + 1);
      var added := ZapretProfile(name, true, [device], "");
      var strategy := Instance(name, candidate, |strategies|);
      StartsGroup(app.name, raws, j, wasP, wasS, start, name, profiles + [added], strategies + [strategy]);
      if |strategies| >= MAX_STRATEGIES {
        return grouped, names, true;
      }
      after := grouped[candidate := |profiles|];
      more := names + [name];
      profiles := profiles + [added];
      strategies := strategies + [strategy];
    }

    /** The assignments of one enabled application. */
    method CompileApplication(app: Application) returns (names: seq<string>, error: Option<CompileError>)
      requires app.enabled && |profiles| == |strategies| <= MAX_STRATEGIES
      modifies `profiles, `strategies
      ensures error.None? <==> app.assignments != [] && AssignmentsOk(app.assignments, library)
                               && old(|strategies|) + |CandidatesIn(app.assignments)| <= MAX_STRATEGIES
      ensures error.None? ==> Compiled(app.name, app.assignments, profiles, strategies, old(|profiles|))
      ensures error.None? ==> old(profiles) <= profiles && old(strategies) <= strategies
      ensures error.None? ==> names == Numbered(app.name, |profiles| - old(|profiles|)) && names != []
    {
      hide CandidateOf, DeviceOf, InstanceName, WellFormed, CandidatesIn, DevicesIn, AssignmentsOk, Compiled, Grouped;
      var raws := app.assignments;
      if raws == [] {
        return [], Some(NoAssignments(app.name));
      }
      names := [];
      ghost var start := |profiles|;
      var devices: set<string> := {};
      var grouped: map<string, nat> := map[];
      NothingCompiled(app.name, raws, profiles, strategies, library);
      for j := 0 to |raws|
        invariant AssignmentsOk(raws[..j], library) && devices == DevicesIn(raws[..j])
        invariant Compiled(app.name, raws[..j], profiles, strategies, start) && Grouped(grouped, strategies, start)
        invariant |profiles| == |strategies| <= MAX_STRATEGIES && start <= |profiles|
        invariant old(profiles) <= profiles && old(strategies) <= strategies
        invariant names == Numbered(app.name, |profiles| - start) && (j > 0 ==> names != [])
      {
        var raw := raws[j];
        var device, candidate := DeviceOf(raw), CandidateOf(raw);
        if !WellFormed(raw) || device in devices {
          AssignmentRefused(raws, j, library);
          return [], Some(BadAssignment(app.name, raw));
        }
        if candidate !in library {
          AssignmentRefused(raws, j, library);
          return [], Some(MissingCandidate(app.name, candidate));
        }
        AssignmentAccepted(raws, j, library);
        DevicesGrow(raws, j);
        devices := devices + {device};
        var full;
        grouped, names, full := Assign(app, j, grouped, names, start);
        if full {
          return [], Some(TooMany);
        }
        CompiledSizes(app.name, raws[..j + 1], profiles, strategies, start);
      }
      assert raws[..|raws|] == raws;
      CompiledSizes(app.name, raws, profiles, strategies, start);
      error := None;
    }

    /** An application of a good name: its instances behind the earlier ones, or none if it is switched off. */
    method CompileNext(a: nat, instances: map<string, seq<string>>, ghost starts: seq<nat>)
      returns (after: map<string, seq<string>>, error: Option<CompileError>, ghost ends: seq<nat>)
      requires a < |applications| && NamesOk(applications[..a]) && NamesOk(applications[..a + 1])
      requires |profiles| == |strategies| == Combinations(applications[..a]) <= MAX_STRATEGIES
      requires |starts| == a + 1 && Layout(applications[..a], starts, profiles, strategies)
      requires Instances(applications[..a], starts, instances)
      modifies `profiles, `strategies
      ensures error.None? <==> ApplicationOk(applications[a], library)
                               && Combinations(applications[..a + 1]) <= MAX_STRATEGIES
      ensures error.None? ==> |profiles| == |strategies| == Combinations(applications[..a + 1])
      ensures error.None? ==> |ends| == a + 2 && Layout(applications[..a + 1], ends, profiles, strategies)
                              && Instances(applications[..a + 1], ends, after)
    {
      hide NamesOk, Combinations, Span, Compiled, Numbered, AssignmentsOk, CandidatesIn;
      var app := applications[a];
      ghost var wasP, wasS := profiles, strategies;
      NameStep(applications, a);
      CombinationsGrow(applications, a);
      after, error, ends := instances, None, starts;
      if app.enabled {
        var list;
        list, error := CompileApplication(app);
        if error.None? {
          CompiledSizes(app.name, app.assignments, profiles, strategies, |wasP|);
          LayoutGrows(applications, a, starts, wasP, wasS, profiles, strategies);
          InstancesGrow(applications, a, starts, |profiles|, instances, list);
          after := instances[app.name := list];
        }
      } else {
        LayoutGrows(applications, a, starts, wasP, wasS, profiles, strategies);
        InstancesStay(applications, a, starts, instances);
      }
      ends := starts + [|profiles|];
    }

    /** The application loop: every enabled application, in order. */
    method CompileApplications() returns (instances: map<string, seq<string>>, error: Option<CompileError>,
        ghost starts: seq<nat>)
      modifies `profiles, `strategies
      ensures error.None? <==> ApplicationsOk(applications, library)
      ensures error.None? ==> Layout(applications, starts, profiles, strategies)
                              && Instances(applications, starts, instances)
    {
      hide Combinations, ApplicationOk, ApplicationName, NamesOk, Layout, Instances;
      profiles, strategies := [], [];
      var names: set<string> := {};
      instances := map[];
      starts := [0];
      Nothing(applications, library);
      for a := 0 to |applications|
        invariant NamesOk(applications[..a]) && names == set n | n in NamesOf(applications[..a])
        invariant forall i :: 0 <= i < a ==> ApplicationOk(applications[i], library)
        invariant |profiles| == |strategies| == Combinations(applications[..a]) <= MAX_STRATEGIES
        invariant |starts| == a + 1 && Layout(applications[..a], starts, profiles, strategies)
        invariant Instances(applications[..a], starts, instances)
      {
        var app := applications[a];
        NameStep(applications, a);
        if !ApplicationName(app.name) || app.name in names {
          return instances, Some(BadApplication(app.name)), starts;
        }
        names := names + {app.name};
        CombinationsGrow(applications, a);
        instances, error, starts := CompileNext(a, instances, starts);
        if error.Some? {
          return;
        }
      }
      assert applications[..|applications|] == applications;
      error := None;
    }

    /** The section loop: application names become the names of their instances. */
    method CompileSections(instances: map<string, seq<string>>,
        ghost starts: seq<nat>) returns (error: Option<CompileError>)
      requires |starts| == |applications| + 1 && Instances(applications, starts, instances)
      modifies `sections
      ensures error.None? <==> forall i :: 0 <= i < |old(sections)| ==> SectionOk(old(sections)[i], applications)
      ensures error.None? ==> |sections| == |old(sections)|
      ensures error.None? ==>
                forall i :: 0 <= i < |sections| ==> sections[i] == WithInstances(old(sections)[i], instances)
    {
      hide SectionOk, WithInstances, Instances;
      for i := 0 to |sections|
        invariant |sections| == |old(sections)|
        invariant forall k :: 0 <= k < i ==> SectionOk(old(sections)[k], applications)
        invariant forall k :: 0 <= k < i ==> sections[k] == WithInstances(old(sections)[k], instances)
        invariant forall k :: i <= k < |sections| ==> sections[k] == old(sections)[k]
      {
        var sec;
        sec, error := CompileSection(sections[i], instances, starts);
        if error.Some? {
          return;
        }
        sections := sections[i := sec];
      }
      error := None;
    }

    method CompileSection(s: Section, instances: map<string, seq<string>>, ghost starts: seq<nat>)
      returns (sec: Section, error: Option<CompileError>)
      requires |starts| == |applications| + 1 && Instances(applications, starts, instances)
      ensures error.None? <==> SectionOk(s, applications)
      ensures error.None? ==> sec == WithInstances(s, instances)
    {
      hide EnabledApplication, Numbered, Instances;
      sec := s;
      if sec.zapretApplications.None? && sec.zapretStrategies != [] {
        sec := sec.(zapretApplications := Some(sec.zapretStrategies));
      }
      var names := if sec.zapretApplications.Some? then sec.zapretApplications.value else [];
      sec := sec.(zapretStrategies := []);
      for k := 0 to |names|
        invariant sec == s.(zapretApplications := sec.zapretApplications,
            zapretStrategies := Gathered(names[..k], instances))
        invariant sec.zapretApplications == WithInstances(s, instances).zapretApplications
        invariant s.enabled && s.action.Zapret? ==>
                    forall m :: 0 <= m < k ==> EnabledApplication(applications, names[m])
      {
        var name := names[k];
        KnownInstances(applications, starts, instances, name);
        if s.enabled && s.action.Zapret? && name !in instances {
          assert ApplicationsOf(s)[k] == name;
          return s, Some(MissingApplication(s.name, name));
        }
        assert names[..k + 1][..k] == names[..k];
        if name in instances {
          sec := sec.(zapretStrategies := sec.zapretStrategies + instances[name]);
        } else {
          assert sec.zapretStrategies + [] == sec.zapretStrategies;
        }
      }
      assert names[..|names|] == names;
      error := None;
    }

    /** ResolveZapretReferences: the parameters of each strategy, from the library. */
    method Resolve()
      modifies `strategies
      ensures |strategies| == |old(strategies)|
      ensures forall i :: 0 <= i < |strategies| ==> strategies[i] == Filled(library, old(strategies)[i])
    {
      for i := 0 to |strategies|
        invariant |strategies| == |old(strategies)|
        invariant forall k :: 0 <= k < i ==> strategies[k] == Filled(library, old(strategies)[k])
        invariant forall k :: i <= k < |strategies| ==> strategies[k] == old(strategies)[k]
      {
        var s := strategies[i];
        if s.candidate != "" && s.candidate in library {
          var v := library[s.candidate];
          strategies := strategies[i := s.(protocols := v.protocols, tcpPorts := v.tcpPorts, udpPorts := v.udpPorts,
                                           tcpPktOut := v.tcpPktOut, udpPktOut := v.udpPktOut)];
        }
      }
    }

    /** CompileZapretApplications. */
    method CompileZapretApplications() returns (error: Option<CompileError>, instances: map<string, seq<string>>,
        ghost starts: seq<nat>, ghost base: seq<ZapretStrategy>)
      modifies this
      ensures error.None? <==> Compilable(applications, library, old(sections))
      ensures error.None? ==> Layout(applications, starts, profiles, base) && Instances(applications, starts, instances)
      ensures error.None? ==> |strategies| == |base|
      ensures error.None? ==>
                forall i :: 0 <= i < |base| ==> strategies[i] == Filled(library, base[i])
      ensures error.None? ==> |sections| == |old(sections)|
      ensures error.None? ==>
                forall i :: 0 <= i < |sections| ==> sections[i] == WithInstances(old(sections)[i], instances)
      ensures error.None? ==> |starts| == |applications| + 1
      ensures error.None? ==>
                forall i :: 0 <= i < |sections| ==>
                  SectionCompiled(applications, starts, base, old(sections)[i], sections[i])
    {
      hide Layout, Instances, ApplicationsOk, SectionOk, WithInstances, Filled, SectionCompiled, NamesOk;
      instances, error, starts := CompileApplications();
      base := strategies;
      if error.Some? {
        return;
      }
      LayoutSizes(applications, starts, profiles, strategies);
      error := CompileSections(instances, starts);
      if error.Some? {
        return;
      }
      NamesHold(applications, library);
      forall i | 0 <= i < |sections|
        ensures SectionCompiled(applications, starts, base, old(sections)[i], sections[i])
      {
        SectionIsCompiled(applications, starts, profiles, base, instances, old(sections)[i]);
      }
      Resolve();
    }
  }

  lemma {:induction false} LayoutSizes(apps: seq<Application>, starts: seq<nat>, profiles: seq<ZapretProfile>,
      strategies: seq<ZapretStrategy>)
    requires Layout(apps, starts, profiles, strategies)
    ensures |starts| == |apps| + 1 && |profiles| == |strategies|
  {
  }

  function Gathered(names: seq<string>, instances: map<string, seq<string>>): seq<string> {
    if names == [] then []
    else
      var last := names[|names| - 1];
      Gathered(names[..|names| - 1], instances) + if last in instances then instances[last] else []
  }

  /** The section with its application names remembered and its strategies replaced by their instances. */
  function WithInstances(s: Section, instances: map<string, seq<string>>): Section {
    var fromStrategies := s.zapretApplications.None? && s.zapretStrategies != [];
    s.(zapretApplications := if fromStrategies then Some(s.zapretStrategies) else s.zapretApplications,
       zapretStrategies := Gathered(ApplicationsOf(s), instances))
  }

  function Filled(library: map<string, Candidate>, s: ZapretStrategy): ZapretStrategy {
    if s.candidate != "" && s.candidate in library then
      var v := library[s.candidate];
      s.(protocols := v.protocols, tcpPorts := v.tcpPorts, udpPorts := v.udpPorts,
          tcpPktOut := v.tcpPktOut, udpPktOut := v.udpPktOut)
    else s
  }

  lemma {:induction false} KnownInstances(apps: seq<Application>, starts: seq<nat>, instances: map<string,
      seq<string>>, name: string)
    requires |starts| == |apps| + 1 && Instances(apps, starts, instances)
    ensures name in instances <==> EnabledApplication(apps, name)
  {
  }

  function NamesOf(apps: seq<Application>): (r: seq<string>)
    ensures |r| == |apps| && forall i :: 0 <= i < |r| ==> r[i] == apps[i].name
  {
    seq(|apps|, i requires 0 <= i < |apps| => apps[i].name)
  }

  lemma {:induction false} Nothing(apps: seq<Application>, library: map<string, Candidate>)
    ensures NamesOk(apps[..0]) && NamesOf(apps[..0]) == [] && Combinations(apps[..0]) == 0
    ensures Layout(apps[..0], [0], [], []) && Instances(apps[..0], [0], map[])
  {
  }

  lemma {:induction false} NameStep(apps: seq<Application>, a: nat)
    requires a < |apps| && NamesOk(apps[..a])
    ensures NamesOf(apps[..a + 1]) == NamesOf(apps[..a]) + [apps[a].name]
    ensures NamesOk(apps[..a + 1]) <==> ApplicationName(apps[a].name) && apps[a].name !in NamesOf(apps[..a])
    ensures !NamesOk(apps[..a + 1]) ==> !NamesOk(apps)
  {
    hide ApplicationName;
    var was, all, names := apps[..a], apps[..a + 1], NamesOf(apps[..a]);
    assert all == was + [apps[a]];
    if NamesOk(apps) { assert forall i :: 0 <= i <= a ==> all[i] == apps[i]; }
    if apps[a].name in names {
      var i :| 0 <= i < a && names[i] == apps[a].name;
      assert all[i].name == all[a].name;
    } else {
      assert forall i :: 0 <= i < a ==> names[i] in names;
    }
  }

  /** One more application behind the earlier ones. */
  lemma {:induction false} LayoutGrows(apps: seq<Application>, a: nat, starts: seq<nat>, wasP: seq<ZapretProfile>,
      wasS: seq<ZapretStrategy>, profiles: seq<ZapretProfile>, strategies: seq<ZapretStrategy>)
    requires a < |apps| && |starts| == a + 1 && Layout(apps[..a], starts, wasP, wasS)
    requires wasP <= profiles && wasS <= strategies && |profiles| == |strategies|
    requires apps[a].enabled ==> Compiled(apps[a].name, apps[a].assignments, profiles, strategies, |wasP|)
    requires !apps[a].enabled ==> |profiles| == |wasP|
    ensures Layout(apps[..a + 1], starts + [|profiles|], profiles, strategies)
  {
    hide Compiled;
    var next := starts + [|profiles|];
    forall b | 0 <= b <= a ensures Span(apps[b], profiles, strategies, next[b], next[b + 1]) {
      if b < a {
        assert Span(apps[..a][b], wasP, wasS, starts[b], starts[b + 1]);
        assert profiles[..starts[b + 1]] == wasP[..starts[b + 1]]
            && strategies[..starts[b + 1]] == wasS[..starts[b + 1]];
      } else {
        assert profiles[..|profiles|] == profiles && strategies[..|strategies|] == strategies;
      }
    }
  }

  lemma {:induction false} InstancesGrow(apps: seq<Application>, a: nat, starts: seq<nat>, end: nat,
      instances: map<string, seq<string>>, list: seq<string>)
    requires a < |apps| && |starts| == a + 1 && Instances(apps[..a], starts, instances)
    requires apps[a].enabled && apps[a].name !in NamesOf(apps[..a])
    requires starts[a] <= end && list == Numbered(apps[a].name, end - starts[a]) && list != []
    ensures Instances(apps[..a + 1], starts + [end], instances[apps[a].name := list])
  {
    hide Numbered;
    var all, names := apps[..a + 1], NamesOf(apps[..a]);
    forall b | 0 <= b < a ensures all[b].name != apps[a].name { assert names[b] in names; }
    forall x | x in instances[apps[a].name := list] ensures EnabledApplication(all, x) {
      if x == apps[a].name {
        assert all[a].name == x;
      } else {
        EnabledLater(apps, a, x);
      }
    }
    assert forall b :: 0 <= b < a ==> all[b] == apps[..a][b];
  }

  lemma {:induction false} EnabledLater(apps: seq<Application>, a: nat, x: string)
    requires a < |apps| && EnabledApplication(apps[..a], x)
    ensures EnabledApplication(apps[..a + 1], x)
  {
    var b :| 0 <= b < a && apps[..a][b].name == x && apps[..a][b].enabled;
    assert apps[..a + 1][b] == apps[..a][b];
  }

  lemma {:induction false} InstancesStay(apps: seq<Application>, a: nat, starts: seq<nat>, instances: map<string,
      seq<string>>)
    requires a < |apps| && |starts| == a + 1 && Instances(apps[..a], starts, instances) && !apps[a].enabled
    ensures Instances(apps[..a + 1], starts + [starts[a]], instances)
  {
    hide Numbered;
    var all := apps[..a + 1];
    assert forall b :: 0 <= b < a ==> all[b] == apps[..a][b];
    forall x | x in instances ensures EnabledApplication(all, x) { EnabledLater(apps, a, x); }
  }

  lemma {:induction false} CompiledSizes(app: string, raws: seq<string>, profiles: seq<ZapretProfile>,
      strategies: seq<ZapretStrategy>, start: nat)
    requires Compiled(app, raws, profiles, strategies, start)
    ensures start <= |profiles| == |strategies| && |profiles| - start == |CandidatesIn(raws)|
  {
  }

  lemma {:induction false} DevicesGrow(raws: seq<string>, j: nat)
    requires j < |raws|
    ensures DevicesIn(raws[..j + 1]) == DevicesIn(raws[..j]) + {DeviceOf(raws[j])}
  {
    CandidatesGrow(raws, j);
  }

  lemma {:induction false} NothingCompiled(app: string, raws: seq<string>, profiles: seq<ZapretProfile>,
      strategies: seq<ZapretStrategy>, library: map<string, Candidate>)
    requires |profiles| == |strategies|
    ensures Compiled(app, raws[..0], profiles, strategies, |profiles|) && DevicesIn(raws[..0]) == {}
    ensures AssignmentsOk(raws[..0], library) && Grouped(map[], strategies, |profiles|)
  {
  }

  lemma {:induction false} AssignmentRefused(raws: seq<string>, j: nat, library: map<string, Candidate>)
    requires j < |raws|
    requires !WellFormed(raws[j]) || DeviceOf(raws[j]) in DevicesIn(raws[..j]) || CandidateOf(raws[j]) !in library
    ensures !AssignmentsOk(raws, library)
  {
    hide WellFormed, DeviceOf, CandidateOf;
    if DeviceOf(raws[j]) in DevicesIn(raws[..j]) {
      var r :| r in raws[..j] && DeviceOf(r) == DeviceOf(raws[j]);
      var i :| 0 <= i < j && raws[..j][i] == r;
      assert raws[i] == r;
    }
  }

  lemma {:induction false} AssignmentAccepted(raws: seq<string>, j: nat, library: map<string, Candidate>)
    requires j < |raws| && AssignmentsOk(raws[..j], library)
    requires WellFormed(raws[j]) && DeviceOf(raws[j]) !in DevicesIn(raws[..j]) && CandidateOf(raws[j]) in library
    ensures AssignmentsOk(raws[..j + 1], library)
  {
    hide WellFormed, DeviceOf, CandidateOf;
    var was, all := raws[..j], raws[..j + 1];
    forall i | 0 <= i < j ensures DeviceOf(all[i]) != DeviceOf(all[j]) { assert all[i] == was[i] && was[i] in was; }
    assert forall i :: 0 <= i < j ==> all[i] == was[i];
  }

  // ----- what the compiled instances promise -----

  /** The span that instance i is in. */
  lemma {:induction false} OwnerOf(apps: seq<Application>, starts: seq<nat>, profiles: seq<ZapretProfile>,
      strategies: seq<ZapretStrategy>, i: nat, n: nat) returns (a: nat)
    requires Layout(apps, starts, profiles, strategies) && n <= |apps| && i < starts[n]
    ensures a < n && starts[a] <= i < starts[a + 1] && apps[a].enabled
    ensures strategies[i] == Instance(InstanceName(apps[a].name, i - starts[a] + 1), strategies[i].candidate, i)
    ensures profiles[i] == ZapretProfile(strategies[i].name, true, profiles[i].interfaces, "")
    ensures Holds(apps[a].assignments, profiles[i], strategies[i])
    decreases n
  {
    hide InstanceName, Holds;
    if i < starts[n - 1] {
      a := OwnerOf(apps, starts, profiles, strategies, i, n - 1);
    } else {
      a := n - 1;
      assert Span(apps[a], profiles, strategies, starts[a], starts[a + 1]);
      assert PairAt(apps[a].name, starts[a], profiles[..starts[n]], strategies[..starts[n]], i);
      assert Holds(apps[a].assignments, profiles[..starts[n]][i], strategies[..starts[n]][i]);
    }
  }

  /** At most 255 strategies, each with a selector of its own that is not zero and stays inside the mask. */
  lemma {:induction false} SelectorsAreDistinct(apps: seq<Application>, starts: seq<nat>,
      profiles: seq<ZapretProfile>, strategies: seq<ZapretStrategy>)
    requires Layout(apps, starts, profiles, strategies) && |strategies| <= MAX_STRATEGIES
    ensures forall i :: 0 <= i < |strategies| ==>
              0 < strategies[i].selectorMark <= 0xff_0000 && strategies[i].selectorMark % 0x1_0000 == 0
    ensures forall i, k :: 0 <= i < k < |strategies| ==> strategies[i].selectorMark != strategies[k].selectorMark
  {
    hide InstanceName, Layout, Holds;
    forall i | 0 <= i < |strategies| ensures strategies[i].selectorMark == (i + 1) * 0x1_0000 {
      SelectorOf(apps, starts, profiles, strategies, i);
    }
  }

  lemma {:induction false} SelectorOf(apps: seq<Application>, starts: seq<nat>, profiles: seq<ZapretProfile>,
      strategies: seq<ZapretStrategy>, i: nat)
    requires Layout(apps, starts, profiles, strategies) && i < |strategies|
    ensures strategies[i].selectorMark == (i + 1) * 0x1_0000
  {
    hide InstanceName, Layout, Holds;
    LayoutEnd(apps, starts, profiles, strategies);
    var a := OwnerOf(apps, starts, profiles, strategies, i, |apps|);
  }

  /**
    Every compiled selector, as a mark, is a selector write of the rules, and a
    packet and its connection marked with it carry it and no other strategy's
    selector, whatever the other owners of the mark write afterwards.
  */
  lemma {:induction false} SelectorsAreWrites(apps: seq<Application>, starts: seq<nat>, profiles: seq<ZapretProfile>,
      strategies: seq<ZapretStrategy>, l: Marks.Layout, before: seq<Marks.Write>, i: nat, after: seq<Marks.Write>,
      m: Marks.State, k: nat)
    requires Layout(apps, starts, profiles, strategies) && |strategies| <= MAX_STRATEGIES
    requires i < |strategies| && k < |strategies| && l.profiles != []
    requires Marks.Accepted(l) && Marks.RouteSpares(l, after, Marks.SELECTOR_MASK)
    requires Marks.AllGenerated(l, before) && Marks.AllGenerated(l, after)
    requires forall j :: 0 <= j < |after| ==> Marks.OwnerOf(after[j]) != Marks.Selector
    ensures Marks.SelectorMark(i + 1) as nat == strategies[i].selectorMark
    ensures Marks.SelectorMark(k + 1) as nat == strategies[k].selectorMark
    ensures var ws := before + [Marks.Select(Marks.SelectorMark(i + 1))] + after;
      && Marks.AllGenerated(l, ws)
      && (Bits.And(Marks.Run(l, ws, m).packet, Marks.SELECTOR_MASK) == Marks.SelectorMark(k + 1) <==> k == i)
      && (Bits.And(Marks.Run(l, ws, m).conn, Marks.SELECTOR_MASK) == Marks.SelectorMark(k + 1) <==> k == i)
  {
    hide Layout, Bits.And, Bits.Fits, Marks.SelectorMark, Marks.Accepted, Marks.RouteSpares,
        Marks.Run, Marks.OwnerOf;
    SelectorOf(apps, starts, profiles, strategies, i);
    SelectorOf(apps, starts, profiles, strategies, k);
    Marks.SelectorsFit(i + 1);
    Marks.SelectorsFit(k + 1);
    Marks.SelectorTellsStrategy(l, before, i + 1, after, m, k + 1);
  }

  lemma {:induction false} LayoutEnd(apps: seq<Application>, starts: seq<nat>, profiles: seq<ZapretProfile>,
      strategies: seq<ZapretStrategy>)
    requires Layout(apps, starts, profiles, strategies)
    ensures |starts| == |apps| + 1 && starts[|apps|] == |strategies| == |profiles|
    ensures forall a, b :: 0 <= a <= b <= |apps| ==> starts[a] <= starts[b]
  {
  }

  /** No two instances share a name, whichever applications they belong to. */
  lemma {:induction false} InstanceNamesAreDistinct(apps: seq<Application>, starts: seq<nat>,
      profiles: seq<ZapretProfile>, strategies: seq<ZapretStrategy>, i: nat, k: nat)
    requires NamesOk(apps) && Layout(apps, starts, profiles, strategies) && i < |strategies| && k < |strategies|
    requires strategies[i].name == strategies[k].name
    ensures i == k
  {
    hide InstanceName, Holds, ApplicationName, Span;
    var a := OwnerOf(apps, starts, profiles, strategies, i, |apps|);
    var b := OwnerOf(apps, starts, profiles, strategies, k, |apps|);
    InstanceNamesDiffer(apps[a].name, i - starts[a] + 1, apps[b].name, k - starts[b] + 1);
  }

  predicate Carries(profiles: seq<ZapretProfile>, i: nat, device: string) {
    i < |profiles| && device in profiles[i].interfaces
  }

  /**
    An assigned device is on exactly one instance of its application, and that
    instance runs the assigned candidate.
  */
  lemma {:induction false} AssignedOnce(apps: seq<Application>, library: map<string, Candidate>, starts: seq<nat>,
      profiles: seq<ZapretProfile>, strategies: seq<ZapretStrategy>, a: nat, j: nat)
    returns (i: nat)
    requires Layout(apps, starts, profiles, strategies) && a < |apps| && apps[a].enabled
    requires AssignmentsOk(apps[a].assignments, library) && j < |apps[a].assignments|
    ensures starts[a] <= i < starts[a + 1] && Carries(profiles, i, DeviceOf(apps[a].assignments[j]))
    ensures strategies[i].candidate == CandidateOf(apps[a].assignments[j])
    ensures forall k ::
              starts[a] <= k < starts[a + 1] && Carries(profiles, k, DeviceOf(apps[a].assignments[j])) ==> k == i
  {
    hide InstanceName, CandidateOf, DeviceOf, WellFormed, CandidatesIn;
    var raws := apps[a].assignments;
    var d, x := DeviceOf(raws[j]), CandidateOf(raws[j]);
    var ps, ss := profiles[..starts[a + 1]], strategies[..starts[a + 1]];
    assert Span(apps[a], profiles, strategies, starts[a], starts[a + 1]);
    assert Compiled(apps[a].name, raws, ps, ss, starts[a]);
    assert Assigned(raws, d, x);
    i :| starts[a] <= i < |ps| && ss[i].candidate == x;
    assert Holds(raws, ps[i], ss[i]);
    forall k | starts[a] <= k < starts[a + 1] && Carries(profiles, k, d) ensures k == i {
      assert Holds(raws, ps[k], ss[k]);
      var m :| 0 <= m < |raws| && DeviceOf(raws[m]) == d && CandidateOf(raws[m]) == ss[k].candidate;
      assert m == j;
    }
  }

  // ----- lookups -----

  lemma {:induction false} FillKeeps(library: map<string, Candidate>, s: ZapretStrategy)
    ensures var f := Filled(library, s);
            && f.name == s.name && f.enabled == s.enabled && f.profile == s.profile
            && f.candidate == s.candidate && f.selectorMark == s.selectorMark
  {
  }

  lemma {:induction false} StrategyFound(ss: seq<ZapretStrategy>, i: nat, index: nat)
    requires i < |ss| && ss[i].enabled
    requires forall k :: 0 <= k < i ==> ss[k].name != ss[i].name
    ensures StrategyFrom(ss, ss[i].name, index) == Some(NormalizeStrategyAt(ss[i], index + i))
  {
    hide NormalizeStrategyAt;
    if i > 0 { StrategyFound(ss[1..], i - 1, index + 1); }
  }

  lemma {:induction false} ProfileFound(ps: seq<ZapretProfile>, i: nat)
    requires i < |ps| && ps[i].enabled && ps[i].name != ""
    requires forall k :: 0 <= k < i ==> ps[k].name != ps[i].name
    ensures ProfileFrom(ps, ps[i].name) == Some(NormalizeProfile(ps[i]))
  {
    hide NormalizeProfile;
    if i > 0 { ProfileFound(ps[1..], i - 1); }
  }

  /** Names without commas or outer spaces, each once, are normal already. */
  lemma {:induction false} PlainInterfaces(out: seq<string>, raw: seq<string>)
    requires forall i :: 0 <= i < |raw| ==> DeviceName(raw[i])
    requires forall i, k :: 0 <= i < k < |raw| ==> raw[i] != raw[k]
    requires forall i :: 0 <= i < |raw| ==> raw[i] !in out
    ensures NormalizeInterfaces(out, raw) == out + raw
    decreases |raw|
  {
    hide DeviceName;
    if raw != [] {
      PlainPiece(raw[0]);
      assert AppendInterfaces(out, [raw[0]]) == out + [raw[0]] by {
        assert [raw[0]][1..] == [];
      }
      PlainInterfaces(out + [raw[0]], raw[1..]);
      assert out + raw == (out + [raw[0]]) + raw[1..];
    } else {
      assert out + raw == out;
    }
  }

  lemma {:induction false} PlainPiece(d: string)
    requires DeviceName(d)
    ensures Split(d, ',') == [d] && TrimSpace(d) == d && d != ""
  {
    assert forall c :: c in d ==> IsWord(c) || c in {'.', ':', '-'};
    SplitOne(d, ',');
    assert !IsSpace(d[0]) && !IsSpace(d[|d| - 1]);
    TrimTight(d);
  }

  /** Looking a compiled strategy up by name finds it, selector and all, and its profile name finds its own partner. */
  lemma {:induction false} PartnersFound(c: Config, apps: seq<Application>, library: map<string, Candidate>,
      starts: seq<nat>, base: seq<ZapretStrategy>, i: nat)
    requires ApplicationsOk(apps, library) && Layout(apps, starts, c.zapretProfiles, base)
    requires |c.zapretStrategies| == |base|
    requires forall k :: 0 <= k < |base| ==> c.zapretStrategies[k] == Filled(library, base[k])
    requires i < |base|
    ensures var found := c.ZapretStrategyByName(base[i].name);
            && found.Some? && found.value == NormalizeStrategyAt(c.zapretStrategies[i], i)
            && found.value.selectorMark == base[i].selectorMark && found.value.candidate == base[i].candidate
            && c.ZapretProfileByName(found.value.profile).Some?
            && c.ZapretProfileByName(found.value.profile).value.interfaces == c.zapretProfiles[i].interfaces
            && c.ZapretProfileByName(found.value.profile).value.fwMark == "0x40000000"
  {
    hide InstanceName, Filled, NormalizeInterfaces, Layout, ApplicationsOk, DeviceName, Holds;
    NamesHold(apps, library);
    LayoutEnd(apps, starts, c.zapretProfiles, base);
    var a := OwnerOf(apps, starts, c.zapretProfiles, base, i, |apps|);
    forall k | 0 <= k < |base| ensures base[k].name == base[i].name ==> k == i {
      if base[k].name == base[i].name { InstanceNamesAreDistinct(apps, starts, c.zapretProfiles, base, k, i); }
    }
    forall k | 0 <= k < |base|
      ensures c.zapretProfiles[k].name == base[k].name == c.zapretStrategies[k].name
    {
      var b := OwnerOf(apps, starts, c.zapretProfiles, base, k, |apps|);
      FillKeeps(library, base[k]);
    }
    FillKeeps(library, base[i]);
    NameNotEmpty(apps[a].name, i - starts[a] + 1);
    StrategyFound(c.zapretStrategies, i, 0);
    ProfileFound(c.zapretProfiles, i);
    OwnDevices(apps, library, a, c.zapretProfiles[i], base[i]);
    PlainInterfaces([], c.zapretProfiles[i].interfaces);
  }

  lemma {:induction false} NamesHold(apps: seq<Application>, library: map<string, Candidate>)
    requires ApplicationsOk(apps, library)
    ensures NamesOk(apps)
  {
  }

  lemma {:induction false} NameNotEmpty(app: string, n: nat)
    ensures InstanceName(app, n) != ""
  {
  }

  lemma {:induction false} OwnDevices(apps: seq<Application>, library: map<string, Candidate>, a: nat,
      p: ZapretProfile, s: ZapretStrategy)
    requires ApplicationsOk(apps, library) && a < |apps| && apps[a].enabled && Holds(apps[a].assignments, p, s)
    ensures forall k :: 0 <= k < |p.interfaces| ==> DeviceName(p.interfaces[k])
    ensures forall k, m :: 0 <= k < m < |p.interfaces| ==> p.interfaces[k] != p.interfaces[m]
  {
    hide DeviceName, CandidateOf;
    var raws := apps[a].assignments;
    assert ApplicationOk(apps[a], library);
    forall k | 0 <= k < |p.interfaces| ensures DeviceName(p.interfaces[k]) {
      assert p.interfaces[k] in p.interfaces;
      var j :| 0 <= j < |raws| && DeviceOf(raws[j]) == p.interfaces[k] && CandidateOf(raws[j]) == s.candidate;
      assert WellFormed(raws[j]);
    }
  }

  // ----- what a section is left with -----

  /** Application a is enabled and bears that name. */
  predicate Bears(apps: seq<Application>, a: nat, name: string) {
    a < |apps| && apps[a].enabled && apps[a].name == name
  }

  /** The names of the instances of the application called so, in their order; none if there is no such application. */
  ghost predicate InstancesOf(apps: seq<Application>, starts: seq<nat>, strategies: seq<ZapretStrategy>, name: string,
      slice: seq<string>)
    requires |starts| == |apps| + 1
  {
    && (forall a: nat :: Bears(apps, a, name) ==>
          && starts[a] <= starts[a + 1] <= |strategies| && |slice| == starts[a + 1] - starts[a]
          && forall n :: 0 <= n < |slice| ==> slice[n] == strategies[starts[a] + n].name)
    && ((forall a: nat :: !Bears(apps, a, name)) ==> slice == [])
  }

  predicate Cuts(cuts: seq<nat>, parts: nat, length: nat) {
    && |cuts| == parts + 1 && cuts[0] == 0 && cuts[parts] == length
    && forall m, n :: 0 <= m <= n <= parts ==> cuts[m] <= cuts[n]
  }

  /** The list falls into one slice for each name, in order: the instances of that application. */
  ghost predicate Listing(apps: seq<Application>, starts: seq<nat>, strategies: seq<ZapretStrategy>,
      names: seq<string>, list: seq<string>, cuts: seq<nat>)
    requires |starts| == |apps| + 1
  {
    && Cuts(cuts, |names|, |list|)
    && forall m :: 0 <= m < |names| ==> InstancesOf(apps, starts, strategies, names[m], list[cuts[m]..cuts[m + 1]])
  }

  /** Every name's instances, in listing order, and within an application in instance order. */
  ghost predicate InOrder(apps: seq<Application>, starts: seq<nat>, strategies: seq<ZapretStrategy>,
      names: seq<string>, list: seq<string>)
    requires |starts| == |apps| + 1
  {
    exists cuts: seq<nat> :: Listing(apps, starts, strategies, names, list, cuts)
  }

  /** The applications a section lists before it is compiled: its own list, or its old strategies when it has none. */
  predicate ListsApplication(s: Section, name: string) {
    match s.zapretApplications
    case Some(names) => name in names
    case None => name in s.zapretStrategies
  }

  /** A compiled section: its applications' instances as strategies, the applications kept, and no other change. */
  ghost predicate SectionCompiled(apps: seq<Application>, starts: seq<nat>, strategies: seq<ZapretStrategy>,
      before: Section, after: Section)
    requires |starts| == |apps| + 1
  {
    && after == before.(zapretStrategies := after.zapretStrategies, zapretApplications := after.zapretApplications)
    && (before.zapretApplications.Some? || before.zapretStrategies == [] ==>
          after.zapretApplications == before.zapretApplications)
    && (before.zapretApplications.None? && before.zapretStrategies != [] ==>
          after.zapretApplications == Some(before.zapretStrategies))
    && match before.zapretApplications
       case Some(names) => InOrder(apps, starts, strategies, names, after.zapretStrategies)
       case None => InOrder(apps, starts, strategies, before.zapretStrategies, after.zapretStrategies)
  }

  lemma {:induction false} GatheredLists(apps: seq<Application>, starts: seq<nat>, profiles: seq<ZapretProfile>,
      strategies: seq<ZapretStrategy>, instances: map<string, seq<string>>, names: seq<string>)
    returns (cuts: seq<nat>)
    requires NamesOk(apps) && Layout(apps, starts, profiles, strategies) && Instances(apps, starts, instances)
    ensures Listing(apps, starts, strategies, names, Gathered(names, instances), cuts)
  {
    hide Layout, Instances, NamesOk, InstancesOf;
    LayoutEnd(apps, starts, profiles, strategies);
    if names == [] {
      cuts := [0];
    } else {
      var front, last := names[..|names| - 1], names[|names| - 1];
      var was := GatheredLists(apps, starts, profiles, strategies, instances, front);
      var list := Gathered(front, instances);
      var slice := if last in instances then instances[last] else [];
      cuts := was + [|list + slice|];
      InstanceSlice(apps, starts, profiles, strategies, instances, last);
      forall m | 0 <= m < |names|
        ensures InstancesOf(apps, starts, strategies, names[m], (list + slice)[cuts[m]..cuts[m + 1]])
      {
        if m < |front| {
          assert (list + slice)[cuts[m]..cuts[m + 1]] == list[was[m]..was[m + 1]];
          assert names[m] == front[m];
        } else {
          assert (list + slice)[cuts[m]..cuts[m + 1]] == slice;
        }
      }
    }
  }

  lemma {:induction false} InstanceAt(apps: seq<Application>, starts: seq<nat>, profiles: seq<ZapretProfile>,
      strategies: seq<ZapretStrategy>, a: nat, n: nat)
    requires Layout(apps, starts, profiles, strategies) && a < |apps| && n < starts[a + 1] - starts[a]
    ensures starts[a] + n < |strategies| && strategies[starts[a] + n].name == InstanceName(apps[a].name, n + 1)
  {
    hide Layout, InstanceName, Holds;
    LayoutEnd(apps, starts, profiles, strategies);
    assert starts[a + 1] <= starts[|apps|];
    var b := OwnerOf(apps, starts, profiles, strategies, starts[a] + n, |apps|);
    OneOwner(starts, |apps|, starts[a] + n, a, b);
  }

  lemma {:induction false} InstanceSlice(apps: seq<Application>, starts: seq<nat>, profiles: seq<ZapretProfile>,
      strategies: seq<ZapretStrategy>, instances: map<string, seq<string>>, name: string)
    requires NamesOk(apps) && Layout(apps, starts, profiles, strategies) && Instances(apps, starts, instances)
    ensures InstancesOf(apps, starts, strategies, name, if name in instances then instances[name] else [])
  {
    hide Layout, InstanceName, NamesOk, Numbered;
    LayoutEnd(apps, starts, profiles, strategies);
    var slice := if name in instances then instances[name] else [];
    forall a: nat | Bears(apps, a, name)
      ensures starts[a] <= starts[a + 1] <= |strategies| && |slice| == starts[a + 1] - starts[a]
      ensures forall n :: 0 <= n < |slice| ==> slice[n] == strategies[starts[a] + n].name
    {
      forall n | 0 <= n < |slice| ensures slice[n] == strategies[starts[a] + n].name {
        NumberedAt(name, |slice|, n);
        InstanceAt(apps, starts, profiles, strategies, a, n);
      }
    }
    if name in instances {
      assert EnabledApplication(apps, name);
      var a: nat :| a < |apps| && apps[a].name == name && apps[a].enabled;
      assert Bears(apps, a, name);
    }
  }

  lemma {:induction false} OneOwner(starts: seq<nat>, n: nat, k: nat, a: nat, b: nat)
    requires |starts| == n + 1 && forall i, j :: 0 <= i <= j <= n ==> starts[i] <= starts[j]
    requires a < n && b < n && starts[a] <= k < starts[a + 1] && starts[b] <= k < starts[b + 1]
    ensures a == b
  {
    var thisA, nextA, thisB, nextB := starts[a], starts[a + 1], starts[b], starts[b + 1];
    assert (a < b ==> nextA <= thisB) && (b < a ==> nextB <= thisA);
  }

  lemma {:induction false} NumberedAt(app: string, n: nat, k: nat)
    requires k < n
    ensures Numbered(app, n)[k] == InstanceName(app, k + 1)
  {
    hide InstanceName;
    if k < n - 1 { NumberedAt(app, n - 1, k); }
  }

  lemma {:induction false} SectionIsCompiled(apps: seq<Application>, starts: seq<nat>, profiles: seq<ZapretProfile>,
      strategies: seq<ZapretStrategy>, instances: map<string, seq<string>>, s: Section)
    requires NamesOk(apps) && Layout(apps, starts, profiles, strategies) && Instances(apps, starts, instances)
    ensures SectionCompiled(apps, starts, strategies, s, WithInstances(s, instances))
  {
    hide Layout, Instances, NamesOk, Listing, Gathered;
    var cuts := GatheredLists(apps, starts, profiles, strategies, instances, ApplicationsOf(s));
  }

  /** The slice that position p is in. */
  lemma {:induction false} SliceAt(cuts: seq<nat>, parts: nat, length: nat, p: nat) returns (m: nat)
    requires Cuts(cuts, parts, length) && p < length
    ensures m < parts && cuts[m] <= p < cuts[m + 1]
  {
    m := 0;
    while cuts[m + 1] <= p
      invariant m < parts && cuts[m] <= p
      decreases parts - m
    {
      m := m + 1;
    }
  }

  /** Instance k belongs to an enabled application that the section lists. */
  ghost predicate OwnerListed(apps: seq<Application>, starts: seq<nat>, s: Section, k: nat)
    requires |starts| == |apps| + 1
  {
    exists a: nat ::
      a < |apps| && starts[a] <= k < starts[a + 1] && apps[a].enabled && ListsApplication(s, apps[a].name)
  }

  lemma {:induction false} ListedHasOwner(apps: seq<Application>, starts: seq<nat>, profiles: seq<ZapretProfile>,
      strategies: seq<ZapretStrategy>, names: seq<string>, list: seq<string>, k: nat) returns (a: nat)
    requires NamesOk(apps) && Layout(apps, starts, profiles, strategies) && k < |strategies|
    requires InOrder(apps, starts, strategies, names, list) && strategies[k].name in list
    ensures a < |apps| && starts[a] <= k < starts[a + 1] && apps[a].enabled && apps[a].name in names
  {
    hide Layout, NamesOk, InstancesOf;
    LayoutEnd(apps, starts, profiles, strategies);
    var cuts :| Listing(apps, starts, strategies, names, list, cuts);
    var p: nat :| p < |list| && list[p] == strategies[k].name;
    var m := SliceAt(cuts, |names|, |list|, p);
    var slice := list[cuts[m]..cuts[m + 1]];
    assert InstancesOf(apps, starts, strategies, names[m], slice) && slice[p - cuts[m]] == list[p];
    a := SliceHasOwner(apps, starts, strategies, names[m], slice, p - cuts[m]);
    InstanceNamesAreDistinct(apps, starts, profiles, strategies, starts[a] + (p - cuts[m]), k);
  }

  lemma {:induction false} SliceHasOwner(apps: seq<Application>, starts: seq<nat>, strategies: seq<ZapretStrategy>,
      name: string, slice: seq<string>, n: nat) returns (a: nat)
    requires |starts| == |apps| + 1 && InstancesOf(apps, starts, strategies, name, slice) && n < |slice|
    ensures Bears(apps, a, name) && starts[a] + n < starts[a + 1] <= |strategies|
    ensures slice[n] == strategies[starts[a] + n].name
  {
    a :| Bears(apps, a, name);
  }

  lemma {:induction false} OwnerHasListed(apps: seq<Application>, starts: seq<nat>, strategies: seq<ZapretStrategy>,
      names: seq<string>, list: seq<string>, k: nat, a: nat)
    requires |starts| == |apps| + 1 && k < |strategies| && InOrder(apps, starts, strategies, names, list)
    requires a < |apps| && starts[a] <= k < starts[a + 1] && apps[a].enabled && apps[a].name in names
    ensures strategies[k].name in list
  {
    hide InstancesOf;
    var cuts :| Listing(apps, starts, strategies, names, list, cuts);
    var m :| 0 <= m < |names| && names[m] == apps[a].name;
    var slice := list[cuts[m]..cuts[m + 1]];
    assert InstancesOf(apps, starts, strategies, names[m], slice);
    SliceHasAll(apps, starts, strategies, names[m], slice, a, k - starts[a]);
    assert list[cuts[m] + (k - starts[a])] == slice[k - starts[a]];
  }

  lemma {:induction false} SliceHasAll(apps: seq<Application>, starts: seq<nat>, strategies: seq<ZapretStrategy>,
      name: string, slice: seq<string>, a: nat, n: nat)
    requires |starts| == |apps| + 1 && InstancesOf(apps, starts, strategies, name, slice) && Bears(apps, a, name)
    requires starts[a] + n < starts[a + 1]
    ensures starts[a + 1] <= |strategies| && n < |slice| && slice[n] == strategies[starts[a] + n].name
  {
  }

  /** A compiled section has a strategy exactly when it lists the application that owns it. */
  lemma {:induction false} SectionHasExactly(apps: seq<Application>, starts: seq<nat>, profiles: seq<ZapretProfile>,
      strategies: seq<ZapretStrategy>, before: Section, after: Section, k: nat)
    requires NamesOk(apps) && Layout(apps, starts, profiles, strategies) && k < |strategies|
    requires SectionCompiled(apps, starts, strategies, before, after)
    ensures strategies[k].name in after.zapretStrategies <==> OwnerListed(apps, starts, before, k)
  {
    hide Layout, NamesOk, InOrder;
    var list := after.zapretStrategies;
    var names := match before.zapretApplications case Some(own) => own case None => before.zapretStrategies;
    assert |starts| == |apps| + 1 by { LayoutEnd(apps, starts, profiles, strategies); }
    if strategies[k].name in list {
      var a := ListedHasOwner(apps, starts, profiles, strategies, names, list, k);
    }
    if OwnerListed(apps, starts, before, k) {
      var a: nat :| a < |apps| && starts[a] <= k < starts[a + 1] && apps[a].enabled
                    && ListsApplication(before, apps[a].name);
      OwnerHasListed(apps, starts, strategies, names, list, k, a);
    }
  }

  /** The configuration holds what the compiler left: profiles, and strategies filled in from the library. */
  ghost predicate HoldsCompiled(c: Config, apps: seq<Application>, library: map<string, Candidate>, starts: seq<nat>,
      base: seq<ZapretStrategy>)
  {
    && ApplicationsOk(apps, library) && Layout(apps, starts, c.zapretProfiles, base)
    && |c.zapretStrategies| == |base|
    && forall k :: 0 <= k < |base| ==> c.zapretStrategies[k] == Filled(library, base[k])
  }

  /** An assignment is the device, an equals sign and the candidate. */
  lemma {:induction false} CutJoined(device: string, candidate: string)
    requires '=' !in device
    ensures DeviceOf(device + "=" + candidate) == device && CandidateOf(device + "=" + candidate) == candidate
    decreases |device|
  {
    var raw := device + "=" + candidate;
    if device == "" {
      assert raw[1..] == candidate;
    } else {
      CutJoined(device[1..], candidate);
      assert raw[1..] == device[1..] + "=" + candidate;
      assert device == [device[0]] + device[1..];
    }
  }

  /** What the library says of a candidate, with the defaults for what it leaves open. */
  predicate RunsCandidate(zs: ZapretStrategy, v: Candidate) {
    && zs.protocols == (if v.protocols == [] then ["tcp"] else v.protocols)
    && zs.tcpPorts == v.tcpPorts && zs.udpPorts == v.udpPorts
    && zs.tcpPktOut == (if v.tcpPktOut == 0 then 15 else v.tcpPktOut)
    && zs.udpPktOut == (if v.udpPktOut == 0 then 9 else v.udpPktOut)
  }

  /**
    Each device that a listed application assigns to a candidate is on the
    profile of a strategy of the section, and that strategy runs the candidate
    as the library has it.
  */
  lemma {:induction false} DevicesServed(c: Config, apps: seq<Application>, library: map<string, Candidate>,
      starts: seq<nat>, base: seq<ZapretStrategy>, before: Section, after: Section, a: nat, j: nat, device: string,
      candidate: string) returns (k: nat)
    requires HoldsCompiled(c, apps, library, starts, base) && |starts| == |apps| + 1
    requires SectionCompiled(apps, starts, base, before, after)
    requires a < |apps| && apps[a].enabled && ListsApplication(before, apps[a].name)
    requires j < |apps[a].assignments| && '=' !in device && apps[a].assignments[j] == device + "=" + candidate
    ensures k < |base| && base[k].name in after.zapretStrategies && candidate in library
    ensures var found := c.ZapretStrategyByName(base[k].name);
            && found.Some? && (candidate != "" ==> RunsCandidate(found.value, library[candidate]))
            && c.ZapretProfileByName(found.value.profile).Some?
            && device in c.ZapretProfileByName(found.value.profile).value.interfaces
    ensures device != "lo" && device != ""
  {
    hide Layout, ApplicationsOk, AssignmentsOk, SectionCompiled, StrategyFrom, ProfileFrom, DeviceOf, CandidateOf;
    CutJoined(device, candidate);
    AssignmentsHold(apps, library, a, j);
    k := AssignedOnce(apps, library, starts, c.zapretProfiles, base, a, j);
    LayoutEnd(apps, starts, c.zapretProfiles, base);
    assert starts[a + 1] <= starts[|apps|];
    PartnersFound(c, apps, library, starts, base, k);
    NamesHold(apps, library);
    SectionHasExactly(apps, starts, c.zapretProfiles, base, before, after, k);
  }

  lemma {:induction false} AssignmentsHold(apps: seq<Application>, library: map<string, Candidate>, a: nat, j: nat)
    requires ApplicationsOk(apps, library) && a < |apps| && apps[a].enabled && j < |apps[a].assignments|
    ensures AssignmentsOk(apps[a].assignments, library) && CandidateOf(apps[a].assignments[j]) in library
    ensures DeviceOf(apps[a].assignments[j]) != "lo" && DeviceOf(apps[a].assignments[j]) != ""
  {
    hide CandidateOf, InstanceName;
    assert ApplicationOk(apps[a], library);
    assert WellFormed(apps[a].assignments[j]);
  }

  // ----- the queue rules of a compiled configuration -----

  lemma {:induction false} FoundSomewhere(ss: seq<ZapretStrategy>, name: string, index: nat)
    requires StrategyFrom(ss, name, index).Some?
    ensures exists j :: 0 <= j < |ss| && ss[j].name == name
  {
    if !(ss[0].name == name && ss[0].enabled) {
      FoundSomewhere(ss[1..], name, index + 1);
      var j :| 0 <= j < |ss[1..]| && ss[1..][j].name == name;
      assert ss[j + 1].name == name;
    }
  }

  /** A selector leads back to one strategy name. */
  lemma {:induction false} SelectorNames(c: Config, apps: seq<Application>, library: map<string, Candidate>,
      starts: seq<nat>, base: seq<ZapretStrategy>, name: string, k: nat)
    requires HoldsCompiled(c, apps, library, starts, base) && k < |base| && c.ZapretStrategyByName(name).Some?
    ensures c.ZapretStrategyByName(name).value.selectorMark == base[k].selectorMark <==> name == base[k].name
  {
    hide Layout, ApplicationsOk, NormalizeStrategyAt, StrategyFrom;
    FoundSomewhere(c.zapretStrategies, name, 0);
    var j :| 0 <= j < |base| && c.zapretStrategies[j].name == name;
    FillKeeps(library, base[j]);
    PartnersFound(c, apps, library, starts, base, j);
    SelectorOf(apps, starts, c.zapretProfiles, base, j);
    SelectorOf(apps, starts, c.zapretProfiles, base, k);
    if base[j].name == base[k].name {
      NamesHold(apps, library);
      InstanceNamesAreDistinct(apps, starts, c.zapretProfiles, base, j, k);
    }
  }

  /** In some zapret section that set is the section's, and the strategy covers the flow and takes its device. */
  ghost predicate TakesFlow(c: Config, ordered: seq<Section>, name: string, g: Family, d: string, proto: Protocol,
      port: int, wan: Option<string>)
  {
    exists i :: 0 <= i < |ordered| && TakesIn(c, ordered[i], name, g, d, proto, port, wan)
  }

  predicate TakesIn(c: Config, s: Section, name: string, g: Family, d: string, proto: Protocol, port: int,
      wan: Option<string>)
  {
    && s.action.Zapret? && c.Routes(g) && d in s.SetRefs(g)
    && name in s.zapretStrategies && Zapret.StrategyQueues(c, s, name, proto, port, wan)
  }

  /** Some rule for that window takes the flow and writes that selector. */
  ghost predicate Carried(rules: seq<Zapret.QueueRule>, selector: nat, w: Zapret.Window, g: Family, d: string,
      proto: Protocol, port: int, wan: Option<string>)
  {
    exists r :: r in rules && Zapret.Queues(r, g, d, proto, port, wan) && r.selector == selector && r.window == w
  }

  lemma {:induction false} CarriedIsTaken(c: Config, apps: seq<Application>, library: map<string, Candidate>,
      starts: seq<nat>, base: seq<ZapretStrategy>, ordered: seq<Section>, rules: seq<Zapret.QueueRule>, k: nat,
      w: Zapret.Window, g: Family, d: string, proto: Protocol, port: int, wan: Option<string>)
    requires HoldsCompiled(c, apps, library, starts, base) && k < |base|
    requires forall r :: r in rules ==> Zapret.RuleOfSome(c, ordered, r)
    requires Carried(rules, base[k].selectorMark, w, g, d, proto, port, wan)
    ensures c.ZapretStrategyByName(base[k].name).Some?
    ensures Zapret.Watches(c.ZapretStrategyByName(base[k].name).value, proto, w)
    ensures TakesFlow(c, ordered, base[k].name, g, d, proto, port, wan)
  {
    hide HoldsCompiled, StrategyFrom, ProfileFrom, Zapret.StrategyCovers, Zapret.Watches, Section.SetRefs;
    var r :| r in rules && Zapret.Queues(r, g, d, proto, port, wan) && r.selector == base[k].selectorMark
             && r.window == w;
    var i :| 0 <= i < |ordered| && ordered[i].action.Zapret? && Zapret.RuleOfSection(c, ordered[i], r);
    var s := ordered[i];
    var m :| 0 <= m < |s.zapretStrategies| && Zapret.RuleOf(c, s, s.zapretStrategies[m], r);
    SelectorNames(c, apps, library, starts, base, s.zapretStrategies[m], k);
    assert TakesIn(c, s, base[k].name, g, d, proto, port, wan);
  }

  lemma {:induction false} TakenIsCarried(c: Config, apps: seq<Application>, library: map<string, Candidate>,
      starts: seq<nat>, base: seq<ZapretStrategy>, ordered: seq<Section>, rules: seq<Zapret.QueueRule>, k: nat,
      w: Zapret.Window, g: Family, d: string, proto: Protocol, port: int, wan: Option<string>)
    requires HoldsCompiled(c, apps, library, starts, base) && k < |base|
    requires forall i :: 0 <= i < |ordered| && ordered[i].action.Zapret? ==> Zapret.HasAllRules(c, ordered[i], rules)
    requires TakesFlow(c, ordered, base[k].name, g, d, proto, port, wan)
    requires c.ZapretStrategyByName(base[k].name).Some?
    requires Zapret.Watches(c.ZapretStrategyByName(base[k].name).value, proto, w)
    ensures Carried(rules, base[k].selectorMark, w, g, d, proto, port, wan)
  {
    hide HoldsCompiled, StrategyFrom, ProfileFrom, Zapret.StrategyCovers, Zapret.Watches, Section.SetRefs;
    var i :| 0 <= i < |ordered| && TakesIn(c, ordered[i], base[k].name, g, d, proto, port, wan);
    var s := ordered[i];
    var m :| 0 <= m < |s.zapretStrategies| && s.zapretStrategies[m] == base[k].name;
    assert Zapret.HasRules(c, s, base[k].name, rules);
    assert Zapret.Wants(c, s, base[k].name, g, d, proto, port, w);
    var r :| r in rules && Zapret.RuleOf(c, s, base[k].name, r) && r.family == g && r.dst == d && r.proto == proto
             && r.window == w;
    SelectorNames(c, apps, library, starts, base, base[k].name, k);
    assert Zapret.Queues(r, g, d, proto, port, wan);
  }

  /**
    The postrouting chain of a compiled configuration: a rule that takes a flow
    writes strategy k's selector exactly when strategy k queues the flow and
    watches the rule's window.
  */
  method QueueCompiled(c: Config, ordered: seq<Section>, ghost apps: seq<Application>,
      ghost library: map<string, Candidate>, ghost starts: seq<nat>, ghost base: seq<ZapretStrategy>)
    returns (rules: seq<Zapret.QueueRule>)
    requires HoldsCompiled(c, apps, library, starts, base)
    requires forall i :: 0 <= i < |ordered| ==> ordered[i] in c.sections && ordered[i].enabled
    ensures forall k: nat, w, g, d, proto, port, wan :: k < |base| ==>
              (Carried(rules, base[k].selectorMark, w, g, d, proto, port, wan)
               <==> c.ZapretStrategyByName(base[k].name).Some?
                    && Zapret.Watches(c.ZapretStrategyByName(base[k].name).value, proto, w)
                    && TakesFlow(c, ordered, base[k].name, g, d, proto, port, wan))
  {
    hide HoldsCompiled, Carried, TakesFlow, Zapret.Watches, StrategyFrom, Zapret.RuleOfSome, Zapret.HasAllRules;
    rules := Zapret.WritePostrouting(c, ordered);
    forall k: nat, w, g, d, proto, port, wan | k < |base|
      ensures Carried(rules, base[k].selectorMark, w, g, d, proto, port, wan)
              <==> c.ZapretStrategyByName(base[k].name).Some?
                   && Zapret.Watches(c.ZapretStrategyByName(base[k].name).value, proto, w)
                   && TakesFlow(c, ordered, base[k].name, g, d, proto, port, wan)
    {
      if Carried(rules, base[k].selectorMark, w, g, d, proto, port, wan) {
        CarriedIsTaken(c, apps, library, starts, base, ordered, rules, k, w, g, d, proto, port, wan);
      } else if c.ZapretStrategyByName(base[k].name).Some?
                && Zapret.Watches(c.ZapretStrategyByName(base[k].name).value, proto, w)
                && TakesFlow(c, ordered, base[k].name, g, d, proto, port, wan) {
        TakenIsCarried(c, apps, library, starts, base, ordered, rules, k, w, g, d, proto, port, wan);
      }
    }
  }
}
