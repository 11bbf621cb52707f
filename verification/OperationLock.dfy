/**
  The global operation lock with request coalescing: any number of processes,
  one advisory lock, one dirty file. Each atomic system call of
  withOperationLockCoalesce is one step; steps of different processes
  interleave freely. Each coalesced caller brings a job, its own fn.
*/
module OperationLock {

  type Pid = nat

  /** The closure that a caller hands over as fn, with its arguments: update, apply, mesh-leave and so on. */
  type Job = nat

  const COALESCE_CAP := 10

  /**
    Where a process stands: `job` is its own fn, `touched` the time it wrote
    the dirty file and `runs` its finished runs of that fn.
  */
  datatype Phase =
    | Waiting(job: Job, touched: nat)
    | Holding(job: Job, touched: nat)
    | Looping(job: Job, touched: nat, runs: nat)
    | Cleared(job: Job, touched: nat, runs: nat)
    | Running(job: Job, touched: nat, runs: nat, started: nat)
    | Ran(job: Job, touched: nat, runs: nat)
    | Returned(job: Job, touched: nat, runs: nat)
    | PlainWaiting
    | PlainHolding
    | PlainDone
    | Exited
  {
    predicate HasLock() {
      Holding? || Looping? || Cleared? || Running? || Ran? || PlainHolding?
    }

    /** A caller of withOperationLockCoalesce that has not been cut short. */
    predicate Coalesced() {
      !PlainWaiting? && !PlainHolding? && !PlainDone? && !Exited?
    }

    /** The flag is removed and fn has not finished. */
    predicate Committed() { Cleared? || Running? }
  }

  datatype Run = Run(job: Job, started: nat, finished: nat, runner: Pid)

  datatype State = State(
    now: nat,
    procs: map<Pid, Phase>,
    lock: set<Pid>,
    dirty: bool,
    log: seq<Run>,        // complete runs of fn
    aborts: seq<nat>,     // times a holder exited after removing the flag and before fn finished
    exits: nat)           // processes that ended by a fatal exit, waiting or holding

  datatype Step =
    | Touch(p: Pid, job: Job) // write the dirty file, then queue
    | PlainArrive(p: Pid)     // withOperationLock / withOperationTryLock
    | Acquire(p: Pid)
    | TryFails(p: Pid)
    | PlainRelease(p: Pid)
    | StatFirst(p: Pid)
    | Clear(p: Pid)
    | Start(p: Pid)
    | Finish(p: Pid)
    | StatAfter(p: Pid)
    | Exit(p: Pid)            // fatal: deadline passed while waiting, or fn exits the process

  predicate Init(s: State) {
    s == State(0, map[], {}, s.dirty, [], [], 0)
  }

  predicate Enabled(s: State, step: Step) {
    match step
    case Touch(p, _) => p !in s.procs
    case PlainArrive(p) => p !in s.procs
    case Acquire(p) => p in s.procs && (s.procs[p].Waiting? || s.procs[p].PlainWaiting?) && s.lock == {}
    case TryFails(p) => p in s.procs && s.procs[p].PlainWaiting? && s.lock != {}
    case PlainRelease(p) => p in s.procs && s.procs[p].PlainHolding?
    case StatFirst(p) => p in s.procs && s.procs[p].Holding?
    case Clear(p) => p in s.procs && s.procs[p].Looping?
    case Start(p) => p in s.procs && s.procs[p].Cleared?
    case Finish(p) => p in s.procs && s.procs[p].Running?
    case StatAfter(p) => p in s.procs && s.procs[p].Ran?
    case Exit(p) => p in s.procs && !s.procs[p].Returned? && !s.procs[p].PlainDone? && !s.procs[p].Exited?
  }

  /** The state after a step; every step takes one tick. */
  function After(s: State, step: Step): State
    requires Enabled(s, step)
  {
    var t := s.(now := s.now + 1);
    match step
    case Touch(p, job) => t.(procs := s.procs[p := Waiting(job, s.now)], dirty := true)
    case PlainArrive(p) => t.(procs := s.procs[p := PlainWaiting])
    case Acquire(p) =>
      var held := if s.procs[p].Waiting? then Holding(s.procs[p].job, s.procs[p].touched) else PlainHolding;
      t.(procs := s.procs[p := held], lock := {p})
    case TryFails(p) => t.(procs := s.procs[p := PlainDone])
    case PlainRelease(p) => t.(procs := s.procs[p := PlainDone], lock := {})
    case StatFirst(p) =>
      if !s.dirty then t.(procs := s.procs[p := Returned(s.procs[p].job, s.procs[p].touched, 0)], lock := {})
      else t.(procs := s.procs[p := Looping(s.procs[p].job, s.procs[p].touched, 0)])
    case Clear(p) =>
      t.(procs := s.procs[p := Cleared(s.procs[p].job, s.procs[p].touched, s.procs[p].runs)], dirty := false)
    case Start(p) =>
      t.(procs := s.procs[p := Running(s.procs[p].job, s.procs[p].touched, s.procs[p].runs, s.now)])
    case Finish(p) =>
      var ph := s.procs[p];
      t.(procs := s.procs[p := Ran(ph.job, ph.touched, ph.runs + 1)],
         log := s.log + [Run(ph.job, ph.started, s.now, p)])
    case StatAfter(p) =>
      var ph := s.procs[p];
      if !s.dirty || ph.runs >= COALESCE_CAP then
        t.(procs := s.procs[p := Returned(ph.job, ph.touched, ph.runs)], lock := {})
      else t.(procs := s.procs[p := Looping(ph.job, ph.touched, ph.runs)])
    case Exit(p) =>
      t.(procs := s.procs[p := Exited],
         lock := s.lock - {p},
         aborts := if s.procs[p].Committed() then s.aborts + [s.now] else s.aborts,
         exits := s.exits + 1)
  }

  /** The state after a schedule, if every step of it was enabled. */
  ghost predicate Reaches(s: State, steps: seq<Step>, end: State)
    decreases |steps|
  {
    if steps == [] then s == end
    else
      var n := |steps| - 1;
      exists mid :: Reaches(s, steps[..n], mid) && Enabled(mid, steps[n]) && After(mid, steps[n]) == end
  }

  // ----- the invariant -----

  /** A complete run of somebody's fn started after time t. */
  ghost predicate Served(s: State, t: nat) {
    exists i :: 0 <= i < |s.log| && s.log[i].started > t
  }

  /** A complete run of this very fn started after time t. */
  ghost predicate OwnServed(s: State, job: Job, t: nat) {
    exists i :: 0 <= i < |s.log| && s.log[i].started > t && s.log[i].job == job
  }

  ghost predicate AbortedSince(s: State, t: nat) { LostSince(s, t, 0) }

  /** The same, of the exits behind the first so many. */
  ghost predicate LostSince(s: State, t: nat, from: nat) {
    exists i :: from <= i < |s.aborts| && s.aborts[i] > t
  }

  /** Some holder has removed the flag and its run starts, or has started, after t. */
  ghost predicate UnderWay(s: State, t: nat) {
    exists p :: p in s.procs && (s.procs[p].Cleared? || (s.procs[p].Running? && s.procs[p].started > t))
  }

  ghost predicate LockInv(s: State) {
    && (forall p :: p in s.procs && s.procs[p].HasLock() ==> s.lock == {p})
    && (forall p :: p in s.lock ==> p in s.procs && s.procs[p].HasLock())
  }

  ghost predicate PhaseInv(s: State, ph: Phase, from: nat) {
    match ph
    case Waiting(_, t) => t < s.now && (s.dirty || Served(s, t) || LostSince(s, t, from) || UnderWay(s, t))
    case Holding(_, t) => t < s.now && (s.dirty || Served(s, t) || LostSince(s, t, from))
    case Looping(j, t, n) => t < s.now && n < COALESCE_CAP && (n > 0 ==> OwnServed(s, j, t))
    case Cleared(_, t, n) => t < s.now && n < COALESCE_CAP
    case Running(_, t, n, started) => t < started < s.now && n < COALESCE_CAP
    case Ran(j, t, n) => t < s.now && 0 < n <= COALESCE_CAP && OwnServed(s, j, t)
    case Returned(j, t, n) =>
      n <= COALESCE_CAP && (Served(s, t) || LostSince(s, t, from)) && (n > 0 ==> OwnServed(s, j, t))
    case _ => true
  }

  ghost predicate Inv(s: State) {
    LockInv(s) && forall p :: p in s.procs ==> PhaseInv(s, s.procs[p], 0)
  }

  lemma {:induction false} LogGrows(s: State, end: State, job: Job, t: nat, from: nat)
    requires s.log <= end.log && s.aborts <= end.aborts
    ensures Served(s, t) ==> Served(end, t)
    ensures OwnServed(s, job, t) ==> Served(end, t) && OwnServed(end, job, t)
    ensures LostSince(s, t, from) ==> LostSince(end, t, from)
  {
    if Served(s, t) {
      var i :| 0 <= i < |s.log| && s.log[i].started > t;
      assert end.log[i].started > t;
    }
    if OwnServed(s, job, t) {
      var i :| 0 <= i < |s.log| && s.log[i].started > t && s.log[i].job == job;
      assert end.log[i].started > t && end.log[i].job == job;
    }
    if LostSince(s, t, from) {
      var i :| from <= i < |s.aborts| && s.aborts[i] > t;
      assert end.aborts[i] > t;
    }
  }

  lemma {:induction false} StepKeepsLock(s: State, step: Step)
    requires LockInv(s) && Enabled(s, step)
    ensures LockInv(After(s, step))
  {
  }

  /** A request under way stays under way, is served, or is recorded as aborted. */
  lemma {:induction false} UnderWayAdvances(s: State, step: Step, t: nat, from: nat)
    requires Enabled(s, step) && t < s.now && UnderWay(s, t) && from <= |s.aborts|
    ensures var end := After(s, step); UnderWay(end, t) || Served(end, t) || LostSince(end, t, from)
  {
    var end := After(s, step);
    var q :| q in s.procs && (s.procs[q].Cleared? || (s.procs[q].Running? && s.procs[q].started > t));
    if step == Finish(q) {
      assert end.log[|s.log|].started > t;
    } else if step == Exit(q) {
      assert s.now > t ==> end.aborts[|s.aborts|] > t;
    } else {
      assert end.procs[q] == s.procs[q] || step == Start(q);
      assert q in end.procs;
    }
  }

  lemma {:induction false} OthersKeep(s: State, step: Step, q: Pid, from: nat)
    requires LockInv(s) && Enabled(s, step) && q in s.procs && q != step.p
    requires PhaseInv(s, s.procs[q], from) && from <= |s.aborts|
    ensures PhaseInv(After(s, step), s.procs[q], from)
  {
    var end, ph := After(s, step), s.procs[q];
    if !ph.PlainWaiting? && !ph.PlainHolding? && !ph.PlainDone? && !ph.Exited? {
      LogGrows(s, end, ph.job, ph.touched, from);
      if ph.Waiting? {
        if UnderWay(s, ph.touched) { UnderWayAdvances(s, step, ph.touched, from); }
        if step.Clear? { assert end.procs[step.p].Cleared?; }
      }
    }
  }

  lemma {:induction false} ActorKeeps(s: State, step: Step, from: nat)
    requires LockInv(s) && Enabled(s, step) && from <= |s.aborts|
    requires step.p in s.procs ==> PhaseInv(s, s.procs[step.p], from)
    ensures PhaseInv(After(s, step), After(s, step).procs[step.p], from)
  {
    var end := After(s, step);
    if step.p in s.procs && !s.procs[step.p].PlainWaiting? && !s.procs[step.p].PlainHolding? {
      LogGrows(s, end, s.procs[step.p].job, s.procs[step.p].touched, from);
      match step
      case Acquire(p) => assert s.lock == {}; assert !UnderWay(s, s.procs[p].touched);
      case Finish(p) =>
        assert end.log[|s.log|].started > s.procs[p].touched && end.log[|s.log|].job == s.procs[p].job;
      case _ =>
    }
  }

  lemma {:induction false} ProcessKeeps(s: State, step: Step, q: Pid, from: nat)
    requires LockInv(s) && Enabled(s, step) && from <= |s.aborts|
    requires q in s.procs ==> PhaseInv(s, s.procs[q], from)
    requires q in After(s, step).procs
    ensures PhaseInv(After(s, step), After(s, step).procs[q], from)
  {
    if q == step.p { ActorKeeps(s, step, from); } else { OthersKeep(s, step, q, from); }
  }

  /** Every step of every process keeps the invariant. */
  lemma {:induction false} StepKeeps(s: State, step: Step)
    requires Inv(s) && Enabled(s, step)
    ensures Inv(After(s, step))
  {
    var end := After(s, step);
    StepKeepsLock(s, step);
    forall q | q in end.procs ensures PhaseInv(end, end.procs[q], 0) {
      assert q in s.procs ==> PhaseInv(s, s.procs[q], 0);
      ProcessKeeps(s, step, q, 0);
    }
  }

  lemma {:induction false} RunKeeps(s: State, steps: seq<Step>, end: State)
    requires Init(s) && Reaches(s, steps, end)
    ensures Inv(end)
    decreases |steps|
  {
    if steps != [] {
      var n := |steps| - 1;
      var mid :| Reaches(s, steps[..n], mid) && Enabled(mid, steps[n]) && After(mid, steps[n]) == end;
      RunKeeps(s, steps[..n], mid);
      StepKeeps(mid, steps[n]);
    }
  }

  // ----- what every run promises -----

  /** At most one process is inside the lock. */
  lemma {:induction false} MutualExclusion(s: State, steps: seq<Step>, end: State, p: Pid, q: Pid)
    requires Init(s) && Reaches(s, steps, end)
    requires p in end.procs && q in end.procs && end.procs[p].HasLock() && end.procs[q].HasLock()
    ensures p == q
  {
    RunKeeps(s, steps, end);
    assert p in {p} && end.lock == {p} && end.lock == {q};
  }

  /**
    After a coalesced caller wrote the flag, a complete run of some caller's fn
    started before it returned, unless some holder exited with the flag removed
    and fn unfinished after that; in runs without such an exit there always is
    one. Whose fn that was is open, except that a caller that ran at all ran
    its own.
  */
  lemma {:induction false} EveryReturnIsServed(s: State, steps: seq<Step>, end: State, p: Pid)
    requires Init(s) && Reaches(s, steps, end)
    requires p in end.procs && end.procs[p].Returned?
    ensures Served(end, end.procs[p].touched) || AbortedSince(end, end.procs[p].touched)
    ensures end.aborts == [] ==> Served(end, end.procs[p].touched)
    ensures end.procs[p].runs > 0 ==> OwnServed(end, end.procs[p].job, end.procs[p].touched)
  {
    RunKeeps(s, steps, end);
    assert PhaseInv(end, end.procs[p], 0);
  }

  // ----- when a waiting caller will be served -----

  /** The flag is set, a run has served the request, or one is under way. */
  ghost predicate Remembered(s: State, t: nat) { s.dirty || Served(s, t) || UnderWay(s, t) }

  /** However things go on without an exit, once p returns it has been served. */
  ghost predicate AlwaysServed(s: State, p: Pid, t: nat) {
    forall steps, end :: Reaches(s, steps, end) && end.exits == s.exits && p in end.procs && end.procs[p].Returned?
      ==> Served(end, t)
  }

  /** Of a waiting caller in any reachable state that is true exactly when its request is remembered. */
  lemma {:induction false} ServedExactly(start: State, steps: seq<Step>, s: State, p: Pid)
    requires Init(start) && Reaches(start, steps, s) && p in s.procs && s.procs[p].Waiting?
    ensures AlwaysServed(s, p, s.procs[p].touched) <==> Remembered(s, s.procs[p].touched)
  {
    hide Reaches, Inv, Served, Init, Kept, Remembered;
    var t := s.procs[p].touched;
    RunKeeps(start, steps, s);
    if Remembered(s, t) {
      assert Kept(s, s, p, t) by { Waits(s, p, t); }
      forall more, end | Reaches(s, more, end) && end.exits == s.exits && p in end.procs && end.procs[p].Returned?
        ensures Served(end, t)
      {
        WaiterKeeps(s, more, end, p, t);
        KeptServes(s, end, p, t);
      }
    } else {
      RunKeepsLooping(start, steps, s);
      var more, end := Forgotten(s, p, t);
      assert Reaches(s, more, end) && end.exits == s.exits && end.procs[p].Returned?;
    }
  }

  /** Since s the caller p waits, is served, or holders exited. */
  ghost predicate Kept(s: State, end: State, p: Pid, t: nat) {
    && s.exits <= end.exits && |s.aborts| <= |end.aborts| && (end.exits == s.exits ==> |end.aborts| == |s.aborts|)
    && p in end.procs && (end.procs[p].Coalesced() ==> end.procs[p].touched == t)
    && PhaseInv(end, end.procs[p], |s.aborts|)
  }

  lemma {:induction false} Waits(s: State, p: Pid, t: nat)
    requires Inv(s) && p in s.procs && s.procs[p].Waiting? && s.procs[p].touched == t && Remembered(s, t)
    ensures Kept(s, s, p, t)
  {
    hide Served, UnderWay;
    assert PhaseInv(s, s.procs[p], 0);
  }

  lemma {:induction false} StepKeepsKept(s: State, mid: State, step: Step, p: Pid, t: nat)
    requires LockInv(mid) && Kept(s, mid, p, t) && Enabled(mid, step)
    ensures Kept(s, After(mid, step), p, t)
  {
    ProcessKeeps(mid, step, p, |s.aborts|);
    hide PhaseInv, LockInv;
  }

  /** From a state that remembers the request, no exit-free run forgets it. */
  lemma {:induction false} WaiterKeeps(s: State, steps: seq<Step>, end: State, p: Pid, t: nat)
    requires Inv(s) && Reaches(s, steps, end) && Kept(s, s, p, t)
    ensures Inv(end) && Kept(s, end, p, t)
    decreases |steps|
  {
    if steps != [] {
      var n := |steps| - 1;
      var mid :| Reaches(s, steps[..n], mid) && Enabled(mid, steps[n]) && After(mid, steps[n]) == end;
      hide Reaches, Kept, Enabled, After, PhaseInv;
      WaiterKeeps(s, steps[..n], mid, p, t);
      StepKeeps(mid, steps[n]);
      StepKeepsKept(s, mid, steps[n], p, t);
    }
  }

  lemma {:induction false} KeptServes(s: State, end: State, p: Pid, t: nat)
    requires Kept(s, end, p, t) && end.exits == s.exits && end.procs[p].Returned?
    ensures Served(end, t)
  {
  }

  /** Between its look at the flag and its removal only the holder could remove it. */
  ghost predicate LoopingSeesFlag(s: State) {
    forall p :: p in s.procs && s.procs[p].Looping? ==> s.dirty
  }

  lemma {:induction false} RunKeepsLooping(s: State, steps: seq<Step>, end: State)
    requires Init(s) && Reaches(s, steps, end)
    ensures LoopingSeesFlag(end)
    decreases |steps|
  {
    if steps != [] {
      var n := |steps| - 1;
      var mid :| Reaches(s, steps[..n], mid) && Enabled(mid, steps[n]) && After(mid, steps[n]) == end;
      RunKeeps(s, steps[..n], mid);
      RunKeepsLooping(s, steps[..n], mid);
      StepKeepsLooping(mid, steps[n]);
    }
  }

  lemma {:induction false} StepKeepsLooping(s: State, step: Step)
    requires Inv(s) && LoopingSeesFlag(s) && Enabled(s, step)
    ensures LoopingSeesFlag(After(s, step))
  {
    hide PhaseInv;
    var end := After(s, step);
    forall p | p in end.procs && end.procs[p].Looping? ensures end.dirty {
      if p != step.p { assert s.procs[p] == end.procs[p] && s.procs[p].HasLock(); }
    }
  }

  /** A holder that cannot serve the request any more leaves: one that is in fn since before it, or behind fn. */
  lemma {:induction false} HolderLeaves(s: State, h: Pid, t: nat) returns (steps: seq<Step>, end: State)
    requires Inv(s) && LoopingSeesFlag(s) && h in s.lock && !Remembered(s, t)
    ensures Reaches(s, steps, end) && end.lock == {} && end.exits == s.exits && !end.dirty && !Served(end, t)
    ensures forall p :: p in s.procs && s.procs[p].Waiting? ==> p in end.procs && end.procs[p] == s.procs[p]
  {
    assert Reaches(s, [], s);
    hide Reaches, PhaseInv;
    assert s.procs[h].HasLock() && !s.procs[h].Looping? && !s.procs[h].Cleared?;
    steps, end := [], s;
    if end.procs[h].Running? {
      assert end.procs[h].started <= t;
      steps, end := Go(s, steps, end, Finish(h));
      assert !Served(end, t);
    }
    var last := if end.procs[h].PlainHolding? then PlainRelease(h)
                else if end.procs[h].Holding? then StatFirst(h) else StatAfter(h);
    steps, end := Go(s, steps, end, last);
  }

  lemma {:induction false} Go(s: State, steps: seq<Step>, mid: State, step: Step) returns (longer: seq<Step>,
      end: State)
    requires Reaches(s, steps, mid) && Enabled(mid, step)
    ensures Reaches(s, longer, end) && end == After(mid, step)
  {
    end := After(mid, step);
    longer := Extend(s, steps, mid, step, end);
  }

  /** A request that nothing remembers: the holder leaves, the caller finds no flag and returns. */
  lemma {:induction false} Forgotten(s: State, p: Pid, t: nat) returns (steps: seq<Step>, end: State)
    requires Inv(s) && LoopingSeesFlag(s) && p in s.procs && s.procs[p].Waiting? && !Remembered(s, t)
    ensures Reaches(s, steps, end) && end.exits == s.exits
    ensures p in end.procs && end.procs[p].Returned? && !Served(end, t)
  {
    assert Reaches(s, [], s);
    hide Reaches, Inv, UnderWay;
    steps, end := [], s;
    if h :| h in s.lock {
      steps, end := HolderLeaves(s, h, t);
    }
    steps, end := Go(s, steps, end, Acquire(p));
    steps, end := Go(s, steps, end, StatFirst(p));
  }

  lemma {:induction false} Extend(s: State, steps: seq<Step>, mid: State, step: Step, end: State)
    returns (longer: seq<Step>)
    requires Reaches(s, steps, mid) && Enabled(mid, step) && After(mid, step) == end
    ensures Reaches(s, longer, end)
  {
    longer := steps + [step];
    assert longer[..|steps|] == steps;
  }

  const START := State(0, map[], {}, false, [], [], 0)
  const HOLDER_RUNS := State(6, map[0 := Running(0, 0, 0, 5), 1 := Waiting(1, 1)], {0}, false, [], [], 0)
  const REQUEST_LOST := State(9, map[0 := Exited, 1 := Returned(1, 1, 0)], {}, false, [], [6], 1)

  lemma {:induction false} TwoCallersOneRuns() returns (steps: seq<Step>)
    ensures Reaches(START, steps, HOLDER_RUNS)
  {
    Nowhere({});
    hide Reaches;
    var s1 := State(1, map[0 := Waiting(0, 0)], {}, true, [], [], 0);
    var s2 := State(2, map[0 := Waiting(0, 0), 1 := Waiting(1, 1)], {}, true, [], [], 0);
    var s3 := State(3, map[0 := Holding(0, 0), 1 := Waiting(1, 1)], {0}, true, [], [], 0);
    var s4 := State(4, map[0 := Looping(0, 0, 0), 1 := Waiting(1, 1)], {0}, true, [], [], 0);
    var s5 := State(5, map[0 := Cleared(0, 0, 0), 1 := Waiting(1, 1)], {0}, false, [], [], 0);
    steps := Extend(START, [], START, Touch(0, 0), s1);
    steps := Extend(START, steps, s1, Touch(1, 1), s2);
    steps := Extend(START, steps, s2, Acquire(0), s3);
    steps := Extend(START, steps, s3, StatFirst(0), s4);
    steps := Extend(START, steps, s4, Clear(0), s5);
    steps := Extend(START, steps, s5, Start(0), HOLDER_RUNS);
  }

  /** The exception is real: an exit inside fn lets a waiting caller return with no run at all. */
  lemma {:induction false} EarlyExitLosesARequest() returns (steps: seq<Step>)
    ensures Init(START) && Reaches(START, steps, REQUEST_LOST)
    ensures REQUEST_LOST.procs[1] == Returned(1, 1, 0) && !Served(REQUEST_LOST, 1)
  {
    hide Reaches;
    steps := TwoCallersOneRuns();
    var s7 := State(7, map[0 := Exited, 1 := Waiting(1, 1)], {}, false, [], [6], 1);
    var s8 := State(8, map[0 := Exited, 1 := Holding(1, 1)], {1}, false, [], [6], 1);
    steps := Extend(START, steps, HOLDER_RUNS, Exit(0), s7);
    steps := Extend(START, steps, s7, Acquire(1), s8);
    steps := Extend(START, steps, s8, StatFirst(1), REQUEST_LOST);
  }

  // ----- whose fn serves a request -----

  /** Every coalesced caller of the schedule brings one of these jobs. */
  predicate Uses(steps: seq<Step>, jobs: set<Job>) {
    forall k :: 0 <= k < |steps| && steps[k].Touch? ==> steps[k].job in jobs
  }

  predicate JobsWithin(s: State, jobs: set<Job>) {
    && (forall i :: 0 <= i < |s.log| ==> s.log[i].job in jobs)
    && (forall p :: p in s.procs && s.procs[p].Coalesced() ==> s.procs[p].job in jobs)
    && (s.exits == 0 ==> s.aborts == [])
  }

  lemma {:induction false} StepKeepsJobs(s: State, step: Step, jobs: set<Job>)
    requires JobsWithin(s, jobs) && Enabled(s, step) && (step.Touch? ==> step.job in jobs)
    ensures JobsWithin(After(s, step), jobs)
  {
    var end := After(s, step);
    assert step.p in s.procs && s.procs[step.p].Coalesced() ==> s.procs[step.p].job in jobs;
    assert end.procs[step.p].Coalesced() ==> end.procs[step.p].job in jobs;
  }

  lemma {:induction false} RunKeepsJobs(s: State, steps: seq<Step>, end: State, jobs: set<Job>)
    requires Init(s) && Reaches(s, steps, end) && Uses(steps, jobs)
    ensures JobsWithin(end, jobs)
    decreases |steps|
  {
    if steps != [] {
      var n := |steps| - 1;
      var mid :| Reaches(s, steps[..n], mid) && Enabled(mid, steps[n]) && After(mid, steps[n]) == end;
      RunKeepsJobs(s, steps[..n], mid, jobs);
      StepKeepsJobs(mid, steps[n], jobs);
    }
  }

  /** In every run over these jobs in which no process is cut short, each return had its own job run after it asked. */
  ghost predicate OwnJobAlways(jobs: set<Job>) {
    forall s, steps, end, p ::
      Init(s) && Reaches(s, steps, end) && Uses(steps, jobs) && end.exits == 0
      && p in end.procs && end.procs[p].Returned?
      ==> OwnServed(end, end.procs[p].job, end.procs[p].touched)
  }

  /** One job behind the flag: a run of somebody's fn is a run of one's own. */
  lemma {:induction false} OneJobIsServed(jobs: set<Job>)
    requires |jobs| <= 1
    ensures OwnJobAlways(jobs)
  {
    forall s, steps, end, p |
      Init(s) && Reaches(s, steps, end) && Uses(steps, jobs) && end.exits == 0
      && p in end.procs && end.procs[p].Returned?
      ensures OwnServed(end, end.procs[p].job, end.procs[p].touched)
    {
      EveryReturnIsServed(s, steps, end, p);
      RunKeepsJobs(s, steps, end, jobs);
      var i :| 0 <= i < |end.log| && end.log[i].started > end.procs[p].touched;
      SameMember(jobs, end.log[i].job, end.procs[p].job);
    }
  }

  lemma {:induction false} SameMember(jobs: set<Job>, a: Job, b: Job)
    requires |jobs| <= 1 && a in jobs && b in jobs
    ensures a == b
  {
    if a != b {
      assert |{a, b}| == 2 && {a, b} <= jobs;
      SmallerSet({a, b}, jobs);
    }
  }

  lemma {:induction false} SmallerSet(small: set<Job>, large: set<Job>)
    requires small <= large
    ensures |small| <= |large|
  {
    assert large == small + (large - small);
  }

  lemma {:induction false} Play(start: State, steps: seq<Step>, mid: State, step: Step, end: State, jobs: set<Job>)
    returns (longer: seq<Step>)
    requires Reaches(start, steps, mid) && Uses(steps, jobs)
    requires Enabled(mid, step) && After(mid, step) == end && (step.Touch? ==> step.job in jobs)
    ensures Reaches(start, longer, end) && Uses(longer, jobs)
  {
    longer := steps + [step];
    assert longer[..|steps|] == steps;
  }

  /** Process 0 is inside job a. */
  function InsideJob(a: Job): State {
    State(5, map[0 := Running(a, 0, 0, 4)], {0}, false, [], [], 0)
  }

  /** Process 1 asked for job b meanwhile, and process 0 is inside job a once more. */
  function InsideAgain(a: Job, b: Job): State {
    State(10, map[0 := Running(a, 0, 1, 9), 1 := Waiting(b, 5)], {0}, false, [Run(a, 4, 6, 0)], [], 0)
  }

  /** Process 0 has left, and process 1 has found no flag and returned. */
  function OtherJobRan(a: Job, b: Job): State {
    State(14, map[0 := Returned(a, 0, 2), 1 := Returned(b, 5, 0)], {}, false,
          [Run(a, 4, 6, 0), Run(a, 9, 10, 0)], [], 0)
  }

  lemma {:induction false} Nowhere(jobs: set<Job>)
    ensures Reaches(START, [], START) && Uses([], jobs)
  {
  }

  lemma {:induction false} EnterJob(a: Job, jobs: set<Job>) returns (steps: seq<Step>)
    requires a in jobs
    ensures Reaches(START, steps, InsideJob(a)) && Uses(steps, jobs)
  {
    Nowhere(jobs);
    hide Reaches, Uses;
    var end := InsideJob(a);
    var s1 := State(1, map[0 := Waiting(a, 0)], {}, true, [], [], 0);
    steps := Play(START, [], START, Touch(0, a), s1, jobs);
    var s2 := State(2, map[0 := Holding(a, 0)], {0}, true, [], [], 0);
    steps := Play(START, steps, s1, Acquire(0), s2, jobs);
    var s3 := State(3, map[0 := Looping(a, 0, 0)], {0}, true, [], [], 0);
    steps := Play(START, steps, s2, StatFirst(0), s3, jobs);
    var s4 := State(4, map[0 := Cleared(a, 0, 0)], {0}, false, [], [], 0);
    steps := Play(START, steps, s3, Clear(0), s4, jobs);
    steps := Play(START, steps, s4, Start(0), end, jobs);
  }

  lemma {:induction false} EnterAgain(a: Job, b: Job, jobs: set<Job>) returns (steps: seq<Step>)
    requires a in jobs && b in jobs
    ensures Reaches(START, steps, InsideAgain(a, b)) && Uses(steps, jobs)
  {
    hide Reaches, Uses;
    var s5, end := InsideJob(a), InsideAgain(a, b);
    var one := end.log;
    steps := EnterJob(a, jobs);
    var s6 := State(6, map[0 := Running(a, 0, 0, 4), 1 := Waiting(b, 5)], {0}, true, [], [], 0);
    steps := Play(START, steps, s5, Touch(1, b), s6, jobs);
    var s7 := State(7, map[0 := Ran(a, 0, 1), 1 := Waiting(b, 5)], {0}, true, one, [], 0);
    steps := Play(START, steps, s6, Finish(0), s7, jobs);
    var s8 := State(8, map[0 := Looping(a, 0, 1), 1 := Waiting(b, 5)], {0}, true, one, [], 0);
    steps := Play(START, steps, s7, StatAfter(0), s8, jobs);
    var s9 := State(9, map[0 := Cleared(a, 0, 1), 1 := Waiting(b, 5)], {0}, false, one, [], 0);
    steps := Play(START, steps, s8, Clear(0), s9, jobs);
    steps := Play(START, steps, s9, Start(0), end, jobs);
  }

  /**
    A schedule after which process 1 has returned although its job never ran:
    it asks while process 0 is inside another job, process 0 sees the flag,
    runs its own job once more and leaves, and process 1 finds the flag gone.
  */
  lemma {:induction false} OtherJobServes(a: Job, b: Job, jobs: set<Job>) returns (steps: seq<Step>)
    requires a in jobs && b in jobs && a != b
    ensures var end := OtherJobRan(a, b);
      && Init(START) && Reaches(START, steps, end) && Uses(steps, jobs) && end.exits == 0
      && end.procs[1] == Returned(b, 5, 0)
      && forall i :: 0 <= i < |end.log| ==> end.log[i].job != b
  {
    hide Reaches, Uses;
    var s10, end := InsideAgain(a, b), OtherJobRan(a, b);
    var two := end.log;
    steps := EnterAgain(a, b, jobs);
    var s11 := State(11, map[0 := Ran(a, 0, 2), 1 := Waiting(b, 5)], {0}, false, two, [], 0);
    steps := Play(START, steps, s10, Finish(0), s11, jobs);
    var s12 := State(12, map[0 := Returned(a, 0, 2), 1 := Waiting(b, 5)], {}, false, two, [], 0);
    steps := Play(START, steps, s11, StatAfter(0), s12, jobs);
    var s13 := State(13, map[0 := Returned(a, 0, 2), 1 := Holding(b, 5)], {1}, false, two, [], 0);
    steps := Play(START, steps, s12, Acquire(1), s13, jobs);
    steps := Play(START, steps, s13, StatFirst(1), end, jobs);
  }

  /**
    Each return has had its own job run after it asked, in every run over these
    jobs in which no process is cut short, exactly when there is at most one job.
  */
  lemma {:induction false} OwnJobExactly(jobs: set<Job>)
    ensures OwnJobAlways(jobs) <==> |jobs| <= 1
  {
    if |jobs| <= 1 {
      OneJobIsServed(jobs);
    } else {
      var a :| a in jobs;
      assert jobs != {a};
      var b :| b in jobs && b != a;
      var steps := OtherJobServes(a, b, jobs);
      var end := OtherJobRan(a, b);
      assert Init(START) && Reaches(START, steps, end) && 1 in end.procs && end.procs[1].Returned?;
      assert !OwnServed(end, end.procs[1].job, end.procs[1].touched);
    }
  }

  // ----- how often fn runs -----

  function RunsBy(log: seq<Run>, p: Pid): nat {
    if log == [] then 0
    else RunsBy(log[..|log| - 1], p) + if log[|log| - 1].runner == p then 1 else 0
  }

  function RunsOf(ph: Phase): nat {
    match ph
    case Looping(_, _, n) => n
    case Cleared(_, _, n) => n
    case Running(_, _, n, _) => n
    case Ran(_, _, n) => n
    case Returned(_, _, n) => n
    case _ => 0
  }

  predicate CountAt(s: State, p: Pid) {
    if p !in s.procs then RunsBy(s.log, p) == 0
    else RunsBy(s.log, p) <= COALESCE_CAP && (!s.procs[p].Exited? ==> RunsBy(s.log, p) == RunsOf(s.procs[p]))
  }

  ghost predicate CountInv(s: State) { forall p :: CountAt(s, p) }

  lemma {:induction false} StepKeepsCount(s: State, step: Step)
    requires Inv(s) && CountInv(s) && Enabled(s, step)
    ensures CountInv(After(s, step))
  {
    hide CountAt, LockInv, PhaseInv;
    assert step.p in s.procs ==> PhaseInv(s, s.procs[step.p], 0);
    forall p ensures CountAt(After(s, step), p) {
      assert CountAt(s, p);
      CountStep(s, step, p);
    }
  }

  lemma {:induction false} CountStep(s: State, step: Step, p: Pid)
    requires Enabled(s, step) && CountAt(s, p)
    requires step.p in s.procs ==> PhaseInv(s, s.procs[step.p], 0)
    ensures CountAt(After(s, step), p)
  {
    hide Served, LostSince, UnderWay;
    var end := After(s, step);
    if step.Finish? {
      assert end.log[..|s.log|] == s.log;
    }
  }

  lemma {:induction false} RunKeepsCount(s: State, steps: seq<Step>, end: State)
    requires Init(s) && Reaches(s, steps, end)
    ensures CountInv(end)
    decreases |steps|
  {
    if steps != [] {
      var n := |steps| - 1;
      var mid :| Reaches(s, steps[..n], mid) && Enabled(mid, steps[n]) && After(mid, steps[n]) == end;
      RunKeeps(s, steps[..n], mid);
      RunKeepsCount(s, steps[..n], mid);
      StepKeepsCount(mid, steps[n]);
    } else {
      forall p ensures CountAt(end, p) {
      }
    }
  }

  /** No process completes fn more than ten times, however many callers keep touching the flag. */
  lemma {:induction false} CapHolds(s: State, steps: seq<Step>, end: State, p: Pid)
    requires Init(s) && Reaches(s, steps, end)
    ensures RunsBy(end.log, p) <= 10
  {
    RunKeepsCount(s, steps, end);
    assert CountAt(end, p);
  }

  // ----- the flag never outlives its callers -----

  ghost predicate Claimed(s: State) {
    exists p :: p in s.procs && (s.procs[p].Waiting? || s.procs[p].Holding? || s.procs[p].Looping?)
  }

  ghost predicate FlagInv(s: State) {
    s.dirty && s.exits == 0 ==> Claimed(s)
  }

  lemma {:induction false} StepKeepsFlag(s: State, step: Step)
    requires Inv(s) && FlagInv(s) && Enabled(s, step)
    ensures FlagInv(After(s, step))
  {
    var end := After(s, step);
    if end.dirty && end.exits == 0 {
      if step.Touch? {
        assert end.procs[step.p].Waiting?;
      } else {
        var q :| q in s.procs && (s.procs[q].Waiting? || s.procs[q].Holding? || s.procs[q].Looping?);
        assert q in end.procs && (end.procs[q] == s.procs[q] || end.procs[q].Holding? || end.procs[q].Looping?);
      }
    }
  }

  lemma {:induction false} RunKeepsFlag(s: State, steps: seq<Step>, end: State)
    requires Init(s) && !s.dirty && Reaches(s, steps, end)
    ensures FlagInv(end)
    decreases |steps|
  {
    if steps != [] {
      var n := |steps| - 1;
      var mid :| Reaches(s, steps[..n], mid) && Enabled(mid, steps[n]) && After(mid, steps[n]) == end;
      RunKeeps(s, steps[..n], mid);
      RunKeepsFlag(s, steps[..n], mid);
      StepKeepsFlag(mid, steps[n]);
    }
  }

  lemma {:induction false} UnheldIsFree(s: State)
    requires LockInv(s) && forall p :: p in s.procs ==> !s.procs[p].HasLock()
    ensures s.lock == {}
  {
  }

  /** When every process is done and none was killed, no request is left in the flag, even past the cap. */
  lemma {:induction false} QuietMeansClean(s: State, steps: seq<Step>, end: State)
    requires Init(s) && !s.dirty && Reaches(s, steps, end) && end.exits == 0
    requires forall p :: p in end.procs ==> end.procs[p].Returned? || end.procs[p].PlainDone?
    ensures !end.dirty && end.lock == {}
  {
    RunKeeps(s, steps, end);
    RunKeepsFlag(s, steps, end);
    UnheldIsFree(end);
  }

  /** No deadlock: while some process is not done, one can move on its own, without an arrival or an exit. */
  lemma {:induction false} SomeoneCanMove(s: State, steps: seq<Step>, end: State, p: Pid) returns (step: Step)
    requires Init(s) && Reaches(s, steps, end)
    requires p in end.procs && !end.procs[p].Returned? && !end.procs[p].PlainDone? && !end.procs[p].Exited?
    ensures Enabled(end, step) && !step.Touch? && !step.PlainArrive? && !step.Exit?
  {
    RunKeeps(s, steps, end);
    if end.lock == {} {
      step := Acquire(p);
    } else {
      var h :| h in end.lock;
      match end.procs[h]
      case PlainHolding => step := PlainRelease(h);
      case Holding(_, _) => step := StatFirst(h);
      case Looping(_, _, _) => step := Clear(h);
      case Cleared(_, _, _) => step := Start(h);
      case Running(_, _, _, _) => step := Finish(h);
      case Ran(_, _, _) => step := StatAfter(h);
    }
  }
}
