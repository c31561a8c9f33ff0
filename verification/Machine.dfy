/** The tick as a thread interleaved with its environment, one step per lock the
    code takes. Between any two steps of the thread, an operator may move a job
    and a consumer may register one. */
module Machine {
  import opened Types
  import opened Budget
  import opened Driver

  /** Where the tick thread stands. */
  datatype Pc =
    | Idle
    | Saw(id: JobId, from: JobPhase)
    | Armed(id: JobId, signal: Signal)
    | Batch(todo: set<JobId>)
    | Settling(id: JobId, signal: Signal, todo: set<JobId>)
    | Clearing(id: JobId, todo: set<JobId>)
    | Releasing(id: JobId, todo: set<JobId>)
    | Aborted(error: IllegalTransition)

  datatype Mach = Mach(s: State, pc: Pc)

  datatype Step =
    | Tock
    | SeedJob(id: JobId)
    | Look(id: JobId)
    | Choose
    | Fire
    | Launch(ids: seq<JobId>)
    | Deliver(id: JobId, ok: bool)
    | Lose(id: JobId)
    | Clear
    | Release
    | Close
    | RegisterJob(id: JobId)
    | Operate(id: JobId, target: JobPhase, reason: TransitionReason)
  {
    predicate FromOperator() {
      Operate?
    }

    predicate FromOutside() {
      Operate? || RegisterJob?
    }
  }

  /** The next machine state, or None where the step cannot be taken. A dispatch
      the transition table rejects aborts the tick. */
  function Next(env: Env, m: Mach, step: Step): Option<Mach> {
    var s := m.s;
    match (step, m.pc)
    case (Tock, Idle) => Some(Mach(s.(now := s.now + 1), Idle))
    case (SeedJob(id), Idle) => Some(Mach(Seed(s, id), Idle))
    case (Look(id), Idle) => Some(Mach(s, Saw(id, s.PhaseOf(id))))
    case (Choose, Saw(id, from)) =>
      var (s', signal) := Act(env, s, id, from);
      Some(Mach(s', if signal.Some? then Armed(id, signal.value) else Idle))
    case (Fire, Armed(id, signal)) =>
      Some(Fired(env, s, id, signal, Idle))
    case (Launch(ids), Idle) =>
      if Launchable(s, ids) then
        Some(Mach(s.(runs := s.runs + ids, now := s.now + 1), Batch(Members(ids))))
      else None
    case (Deliver(id, ok), Batch(todo)) =>
      if id in todo then
        Some(if ok then Mach(s, Settling(id, ExecutionSucceeded, todo - {id}))
             else Mach(Book(env, s, id), Settling(id, ExecutionFailed, todo - {id})))
      else None
    case (Lose(id), Batch(todo)) => Some(Mach(s, Batch(todo - {id})))
    case (Fire, Settling(id, signal, todo)) =>
      Some(Fired(env, s, id, signal,
                 if signal.ExecutionSucceeded? then Clearing(id, todo) else Releasing(id, todo)))
    case (Clear, Clearing(id, todo)) => Some(Mach(Forget(s, id), Releasing(id, todo)))
    case (Release, Releasing(id, todo)) => Some(Mach(Free(s, id), Batch(todo)))
    case (Close, Batch(todo)) => if todo == {} then Some(Mach(s, Idle)) else None
    case (RegisterJob(id), _) => Some(Mach(Register(s, id), m.pc))
    case (Operate(id, target, reason), _) =>
      match Advance(s.PhaseOf(id), OperatorTransition(target)) {
        case Ok(to) => Some(Mach(Emit(env, s, id, to, reason), m.pc))
        case Err(_) => None
      }
    case _ => None
  }

  predicate Launchable(s: State, ids: seq<JobId>) {
    Distinct(ids) && forall id | id in ids :: s.PhaseOf(id).Running?
  }

  function Fired(env: Env, s: State, id: JobId, signal: Signal, next: Pc): Mach {
    match Advance(s.PhaseOf(id), signal)
    case Ok(_) => Mach(Dispatch(env, s, id, signal), next)
    case Err(error) => Mach(s, Aborted(error))
  }

  function Run(env: Env, m: Mach, steps: seq<Step>): Option<Mach>
    decreases |steps|
  {
    if steps == [] then Some(m)
    else
      match Next(env, m, steps[0])
      case Some(m') => Run(env, m', steps[1..])
      case None => None
  }

  lemma {:induction false} RunAppend(env: Env, m: Mach, first: seq<Step>, second: seq<Step>)
    requires Run(env, m, first).Some?
    ensures Run(env, m, first + second) == Run(env, Run(env, m, first).value, second)
    decreases |first|
  {
    if first == [] {
      assert first + second == second;
    } else {
      assert (first + second)[0] == first[0];
      assert (first + second)[1..] == first[1..] + second;
      RunAppend(env, Next(env, m, first[0]).value, first[1..], second);
    }
  }

  // ----- A tick is a run of the machine in which nobody interferes -----

  /** The step belongs to the tick thread, names only jobs of `jobs`, and, unless
      `executing`, starts no execution and delivers no result. */
  predicate StepWithin(step: Step, jobs: set<JobId>, executing: bool) {
    match step
    case SeedJob(id) => id in jobs
    case Look(id) => id in jobs
    case Launch(ids) => executing && Members(ids) <= jobs
    case Deliver(id, _) => executing && id in jobs
    case Lose(id) => executing && id in jobs
    case RegisterJob(_) => false
    case Operate(_, _, _) => false
    case _ => true
  }

  predicate Within(steps: seq<Step>, jobs: set<JobId>, executing: bool) {
    forall i | 0 <= i < |steps| :: StepWithin(steps[i], jobs, executing)
  }

  /** `steps` leads from `m` to `m'` and stays within `jobs`. */
  ghost predicate Path(env: Env, m: Mach, steps: seq<Step>, m': Mach, jobs: set<JobId>, executing: bool) {
    Run(env, m, steps) == Some(m') && Within(steps, jobs, executing)
  }

  /** The batches of executions started, in order. */
  function Launches(steps: seq<Step>): seq<seq<JobId>> {
    if steps == [] then []
    else (if steps[0].Launch? then [steps[0].ids] else []) + Launches(steps[1..])
  }

  /** At most one batch, of jobs of the wave. */
  predicate OneBatch(batches: seq<seq<JobId>>, wave: seq<JobId>) {
    |batches| <= 1 && forall b | b in batches :: Members(b) <= Members(wave)
  }

  /** Wave after wave, at most one batch each, of its own jobs. */
  predicate Planned(batches: seq<seq<JobId>>, waves: seq<seq<JobId>>)
    decreases |waves|
  {
    if waves == [] then batches == []
    else
      || Planned(batches, waves[1..])
      || (batches != [] && Members(batches[0]) <= Members(waves[0]) && Planned(batches[1..], waves[1..]))
  }

  lemma PlannedFirst(first: seq<seq<JobId>>, rest: seq<seq<JobId>>, waves: seq<seq<JobId>>)
    requires waves != [] && OneBatch(first, waves[0]) && Planned(rest, waves[1..])
    ensures Planned(first + rest, waves)
  {
    if first == [] {
      assert first + rest == rest;
    } else {
      assert (first + rest)[1..] == rest;
      assert first[0] in first;
    }
  }

  lemma {:induction false} LaunchesAppend(first: seq<Step>, second: seq<Step>)
    ensures Launches(first + second) == Launches(first) + Launches(second)
    decreases |first|
  {
    if first == [] {
      assert first + second == second;
    } else {
      assert (first + second)[1..] == first[1..] + second;
      LaunchesAppend(first[1..], second);
    }
  }

  lemma {:induction false} NoLaunches(steps: seq<Step>)
    requires forall i | 0 <= i < |steps| :: !steps[i].Launch?
    ensures Launches(steps) == []
    decreases |steps|
  {
    if steps != [] {
      NoLaunches(steps[1..]);
    }
  }

  lemma IdleLaunches(steps: seq<Step>, jobs: set<JobId>)
    requires Within(steps, jobs, false)
    ensures Launches(steps) == []
  {
    forall i | 0 <= i < |steps| ensures !steps[i].Launch? {
      assert StepWithin(steps[i], jobs, false);
    }
    NoLaunches(steps);
  }

  lemma PathAppend(env: Env, a: Mach, first: seq<Step>, b: Mach, second: seq<Step>, c: Mach,
                   jobs: set<JobId>, executing: bool)
    returns (steps: seq<Step>)
    requires Path(env, a, first, b, jobs, executing)
    requires Path(env, b, second, c, jobs, executing)
    ensures Path(env, a, steps, c, jobs, executing) && steps == first + second
  {
    steps := first + second;
    RunAppend(env, a, first, second);
  }

  lemma PathWiden(env: Env, a: Mach, steps: seq<Step>, b: Mach, jobs: set<JobId>, executing: bool,
                  more: set<JobId>)
    requires Path(env, a, steps, b, jobs, executing) && jobs <= more
    ensures Path(env, a, steps, b, more, true)
    ensures executing || Path(env, a, steps, b, more, false)
  {
    forall i | 0 <= i < |steps|
      ensures StepWithin(steps[i], more, true) && (executing || StepWithin(steps[i], more, false))
    {
      assert StepWithin(steps[i], jobs, executing);
    }
  }

  lemma Path1(env: Env, m: Mach, a: Step, jobs: set<JobId>, executing: bool) returns (steps: seq<Step>)
    requires Next(env, m, a).Some? && StepWithin(a, jobs, executing)
    ensures Path(env, m, steps, Next(env, m, a).value, jobs, executing) && steps == [a]
  {
    steps := [a];
    assert [a][1..] == [];
  }

  /** A signal the driver chooses for the phase it is in is never rejected. */
  lemma ActLegal(env: Env, s: State, id: JobId)
    ensures var (s', signal) := Act(env, s, id, s.PhaseOf(id));
            && s'.phases == s.phases
            && (signal.Some? ==> Advance(s'.PhaseOf(id), signal.value).Ok?)
  {
  }

  lemma Path0(env: Env, m: Mach, jobs: set<JobId>, executing: bool) returns (steps: seq<Step>)
    ensures Path(env, m, steps, m, jobs, executing) && steps == []
  {
    steps := [];
  }

  /** One more step at the end of a path. */
  lemma PathStep(env: Env, a: Mach, first: seq<Step>, b: Mach, step: Step, jobs: set<JobId>, executing: bool)
    returns (steps: seq<Step>)
    requires Path(env, a, first, b, jobs, executing)
    requires Next(env, b, step).Some? && StepWithin(step, jobs, executing)
    ensures Path(env, a, steps, Next(env, b, step).value, jobs, executing) && steps == first + [step]
  {
    var last := Path1(env, b, step, jobs, executing);
    steps := PathAppend(env, a, first, b, last, Next(env, b, step).value, jobs, executing);
  }

  lemma AdvanceOncePath(env: Env, s: State, id: JobId) returns (steps: seq<Step>)
    ensures Path(env, Mach(s, Idle), steps, Mach(AdvanceOnce(env, s, id).0, Idle), {id}, false)
  {
    ActLegal(env, s, id);
    var m0, m1 := Mach(s, Idle), Mach(s, Saw(id, s.PhaseOf(id)));
    var m2 := Next(env, m1, Choose).value;
    steps := Path1(env, m0, Look(id), {id}, false);
    steps := PathStep(env, m0, steps, m1, Choose, {id}, false);
    if m2.pc != Idle {
      steps := PathStep(env, m0, steps, m2, Fire, {id}, false);
    }
  }

  lemma {:induction false} DrivePath(env: Env, s: State, id: JobId, fuel: nat) returns (steps: seq<Step>)
    ensures Path(env, Mach(s, Idle), steps, Mach(Drive(env, s, id, fuel), Idle), {id}, false)
    decreases fuel
  {
    steps := [];
    if fuel > 0 && !s.PhaseOf(id).Running? {
      var (s', progressed) := AdvanceOnce(env, s, id);
      steps := AdvanceOncePath(env, s, id);
      if progressed {
        var rest := DrivePath(env, s', id, fuel - 1);
        steps := PathAppend(env, Mach(s, Idle), steps, Mach(s', Idle), rest, Mach(Drive(env, s, id, fuel), Idle), {id}, false);
      }
    }
  }

  lemma {:induction false} DriveWavePath(env: Env, s: State, wave: seq<JobId>) returns (steps: seq<Step>)
    ensures Path(env, Mach(s, Idle), steps, Mach(DriveWave(env, s, wave), Idle), Members(wave), false)
    decreases |wave|
  {
    steps := [];
    if wave != [] {
      var id, jobs := wave[0], Members(wave);
      var s1 := Seed(s, id);
      var s2 := Drive(env, s1, id, FIRST_FUEL);
      steps := Path1(env, Mach(s, Idle), SeedJob(id), jobs, false);
      var drive := DrivePath(env, s1, id, FIRST_FUEL);
      PathWiden(env, Mach(s1, Idle), drive, Mach(s2, Idle), {id}, false, jobs);
      steps := PathAppend(env, Mach(s, Idle), steps, Mach(s1, Idle), drive, Mach(s2, Idle), jobs, false);
      var rest := DriveWavePath(env, s2, wave[1..]);
      var end := Mach(DriveWave(env, s, wave), Idle);
      PathWiden(env, Mach(s2, Idle), rest, end, Members(wave[1..]), false, jobs);
      steps := PathAppend(env, Mach(s, Idle), steps, Mach(s2, Idle), rest, end, jobs, false);
    }
  }

  lemma {:induction false} DrainWavePath(env: Env, s: State, wave: seq<JobId>) returns (steps: seq<Step>)
    ensures Path(env, Mach(s, Idle), steps, Mach(DrainWave(env, s, wave), Idle), Members(wave), false)
    decreases |wave|
  {
    steps := [];
    if wave != [] {
      var id, jobs := wave[0], Members(wave);
      var s2 := Drive(env, s, id, DRAIN_FUEL);
      var drive := DrivePath(env, s, id, DRAIN_FUEL);
      PathWiden(env, Mach(s, Idle), drive, Mach(s2, Idle), {id}, false, jobs);
      var rest := DrainWavePath(env, s2, wave[1..]);
      var end := Mach(DrainWave(env, s, wave), Idle);
      PathWiden(env, Mach(s2, Idle), rest, end, Members(wave[1..]), false, jobs);
      steps := PathAppend(env, Mach(s, Idle), drive, Mach(s2, Idle), rest, end, jobs, false);
    }
  }

  lemma ApplyResultPath(env: Env, s: State, id: JobId, ok: bool, todo: set<JobId>, jobs: set<JobId>)
    returns (steps: seq<Step>)
    requires s.PhaseOf(id).Running? && id in todo && id in jobs
    ensures Path(env, Mach(s, Batch(todo)), steps, Mach(ApplyResult(env, s, id, ok), Batch(todo - {id})), jobs, true)
    ensures Launches(steps) == []
  {
    hide Forget, Free, Launches;
    var m0 := Mach(s, Batch(todo));
    var m1 := Next(env, m0, Deliver(id, ok)).value;
    var m2 := Next(env, m1, Fire).value;
    steps := Path1(env, m0, Deliver(id, ok), jobs, true);
    steps := PathStep(env, m0, steps, m1, Fire, jobs, true);
    if ok {
      steps := PathStep(env, m0, steps, m2, Clear, jobs, true);
      steps := PathStep(env, m0, steps, Next(env, m2, Clear).value, Release, jobs, true);
    } else {
      steps := PathStep(env, m0, steps, m2, Release, jobs, true);
    }
    NoLaunches(steps);
  }

  /** Applying one result moves only its own job. */
  lemma ApplyResultFrame(env: Env, s: State, id: JobId, ok: bool)
    requires s.PhaseOf(id).Running?
    ensures var s' := ApplyResult(env, s, id, ok);
            && s'.phases == s.phases[id := if ok then Succeeded else Failed(1)]
            && s'.attempts == (if ok then s.attempts - {id} else s.attempts[id := s.AttemptsOf(id) + 1])
            && s'.HistoryOf(id) == (if ok then [] else Book(env, s, id).HistoryOf(id))
            && (forall x | x != id :: s'.HistoryOf(x) == s.HistoryOf(x))
            && s'.jobs == s.jobs && s'.runs == s.runs
            && s'.slots == GiveBack(s.slots, id)
  {
  }

  lemma {:induction false} ApplyAllPath(env: Env, s: State, arrivals: seq<JobId>, moment: nat, jobs: set<JobId>)
    returns (steps: seq<Step>)
    requires Distinct(arrivals) && Members(arrivals) <= jobs
    requires forall id | id in arrivals :: s.PhaseOf(id).Running?
    ensures Path(env, Mach(s, Batch(Members(arrivals))), steps,
                 Mach(ApplyAll(env, s, arrivals, moment), Batch({})), jobs, true)
    ensures Launches(steps) == []
    decreases |arrivals|
  {
    steps := [];
    if arrivals == [] {
      assert Members(arrivals) == {};
    } else {
      var id, todo := arrivals[0], Members(arrivals);
      assert id in todo && todo - {id} == Members(arrivals[1..]);
      assert forall x | x in arrivals[1..] :: x in arrivals && x != id;
      var m0 := Mach(s, Batch(todo));
      var outcome := ResultOf(env, s, moment, id);
      var s' := s;
      if outcome.Panicked? {
        steps := Path1(env, m0, Lose(id), jobs, true);
        NoLaunches(steps);
      } else {
        s' := ApplyResult(env, s, id, outcome.Completed?);
        ApplyResultFrame(env, s, id, outcome.Completed?);
        steps := ApplyResultPath(env, s, id, outcome.Completed?, todo, jobs);
      }
      var rest := ApplyAllPath(env, s', arrivals[1..], moment, jobs);
      LaunchesAppend(steps, rest);
      steps := PathAppend(env, m0, steps, Mach(s', Batch(todo - {id})), rest,
                          Mach(ApplyAll(env, s, arrivals, moment), Batch({})), jobs, true);
    }
  }

  lemma {:induction false} RunningInFacts(s: State, wave: seq<JobId>)
    requires Distinct(wave)
    ensures Distinct(RunningIn(s, wave))
    ensures forall id :: id in RunningIn(s, wave) <==> id in wave && s.PhaseOf(id).Running?
  {
    if wave != [] {
      RunningInFacts(s, wave[1..]);
      assert forall id :: id in wave <==> id == wave[0] || id in wave[1..];
    }
  }

  /** A whole batch: launch, results in the order they arrive, close. */
  lemma BatchPath(env: Env, s: State, ids: seq<JobId>, arrivals: seq<JobId>, jobs: set<JobId>)
    returns (steps: seq<Step>)
    requires Launchable(s, ids) && Launchable(s, arrivals)
    requires Members(ids) == Members(arrivals) <= jobs
    ensures var launched := s.(runs := s.runs + ids, now := s.now + 1);
            Path(env, Mach(s, Idle), steps, Mach(ApplyAll(env, launched, arrivals, s.now), Idle), jobs, true)
    ensures Launches(steps) == [ids]
  {
    var launched := s.(runs := s.runs + ids, now := s.now + 1);
    var m0, m1 := Mach(s, Idle), Mach(launched, Batch(Members(arrivals)));
    var m2 := Mach(ApplyAll(env, launched, arrivals, s.now), Batch({}));
    steps := Path1(env, m0, Launch(ids), jobs, true);
    var apply := ApplyAllPath(env, launched, arrivals, s.now, jobs);
    steps := PathAppend(env, m0, steps, m1, apply, m2, jobs, true);
    steps := PathStep(env, m0, steps, m2, Close, jobs, true);
    assert steps == [Launch(ids)] + (apply + [Close]);
    NoLaunches([Close]);
    LaunchesAppend(apply, [Close]);
  }

  lemma ArrivalFacts(env: Env, s: State, wave: seq<JobId>, ids: seq<JobId>, arrivals: seq<JobId>)
    requires Distinct(wave) && ids == RunningIn(s, wave) && arrivals == env.ArrivalOrder(s.now, ids)
    ensures Launchable(s, ids) && Launchable(s, arrivals)
    ensures Members(ids) == Members(arrivals) <= Members(wave)
  {
    RunningInFacts(s, wave);
    DistinctReordered(ids, arrivals);
    forall id | id in arrivals ensures s.PhaseOf(id).Running? {
      assert id in Members(arrivals);
    }
  }

  lemma ExecuteSomePath(env: Env, s: State, wave: seq<JobId>, end: State) returns (steps: seq<Step>)
    requires Distinct(wave) && RunningIn(s, wave) != [] && end == Execute(env, s, wave)
    ensures Path(env, Mach(s, Idle), steps, Mach(end, Idle), Members(wave), true)
    ensures OneBatch(Launches(steps), wave)
  {
    hide ApplyAll, RunningIn, Run, Next, Launches;
    var ids := RunningIn(s, wave);
    var arrivals := env.ArrivalOrder(s.now, ids);
    ArrivalFacts(env, s, wave, ids, arrivals);
    steps := BatchPath(env, s, ids, arrivals, Members(wave));
  }

  lemma ExecutePath(env: Env, s: State, wave: seq<JobId>) returns (steps: seq<Step>)
    requires Distinct(wave)
    ensures Path(env, Mach(s, Idle), steps, Mach(Execute(env, s, wave), Idle), Members(wave), true)
    ensures OneBatch(Launches(steps), wave)
  {
    if RunningIn(s, wave) == [] {
      steps := Path0(env, Mach(s, Idle), Members(wave), true);
    } else {
      steps := ExecuteSomePath(env, s, wave, Execute(env, s, wave));
    }
  }

  lemma RunWavePath(env: Env, s: State, wave: seq<JobId>) returns (steps: seq<Step>)
    requires Distinct(wave)
    ensures Path(env, Mach(s, Idle), steps, Mach(RunWave(env, s, wave), Idle), Members(wave), true)
    ensures OneBatch(Launches(steps), wave)
  {
    var jobs := Members(wave);
    var s1 := DriveWave(env, s, wave);
    var s2 := Execute(env, s1, wave);
    var s3 := DrainWave(env, s2, wave);
    var drive := DriveWavePath(env, s, wave);
    var execute := ExecutePath(env, s1, wave);
    var drain := DrainWavePath(env, s2, wave);
    IdleLaunches(drive, jobs);
    IdleLaunches(drain, jobs);
    LaunchesAppend(drive, execute);
    LaunchesAppend(drive + execute, drain);
    PathWiden(env, Mach(s, Idle), drive, Mach(s1, Idle), jobs, false, jobs);
    PathWiden(env, Mach(s2, Idle), drain, Mach(s3, Idle), jobs, false, jobs);
    steps := PathAppend(env, Mach(s, Idle), drive, Mach(s1, Idle), execute, Mach(s2, Idle), jobs, true);
    steps := PathAppend(env, Mach(s, Idle), steps, Mach(s2, Idle), drain, Mach(s3, Idle), jobs, true);
  }

  lemma {:induction false} RunWavesPath(env: Env, s: State, waves: seq<seq<JobId>>) returns (steps: seq<Step>)
    requires AllDistinct(waves)
    ensures Path(env, Mach(s, Idle), steps, Mach(RunWaves(env, s, waves), Idle), Union(waves), true)
    ensures Planned(Launches(steps), waves)
    decreases |waves|
  {
    steps := [];
    if waves != [] {
      var jobs := Union(waves);
      var s' := RunWave(env, s, waves[0]);
      var first := RunWavePath(env, s, waves[0]);
      var rest := RunWavesPath(env, s', waves[1..]);
      var end := Mach(RunWaves(env, s, waves), Idle);
      assert Members(waves[0]) <= jobs;
      assert Union(waves[1..]) <= jobs by {
        forall k, id | 0 <= k < |waves[1..]| && id in waves[1..][k] ensures id in jobs {
          assert id in waves[k + 1];
        }
      }
      LaunchesAppend(first, rest);
      PlannedFirst(Launches(first), Launches(rest), waves);
      PathWiden(env, Mach(s, Idle), first, Mach(s', Idle), Members(waves[0]), true, jobs);
      PathWiden(env, Mach(s', Idle), rest, end, Union(waves[1..]), true, jobs);
      steps := PathAppend(env, Mach(s, Idle), first, Mach(s', Idle), rest, end, jobs, true);
    }
  }

  /** Every tick is a run of the machine from Idle to Idle with no outside step, so
      whatever holds of all machine runs holds of ticks, and during them. */
  lemma TickPath(env: Env, s: State, waves: seq<seq<JobId>>) returns (steps: seq<Step>)
    requires AllDistinct(waves)
    ensures Path(env, Mach(s, Idle), steps, Mach(Tick(env, s, waves), Idle), Union(waves), true)
    ensures Planned(Launches(steps), waves)
  {
    var m0, m1 := Mach(s, Idle), Mach(s.(now := s.now + 1), Idle);
    var tock := Path1(env, m0, Tock, Union(waves), true);
    var rest := RunWavesPath(env, m1.s, waves);
    NoLaunches(tock);
    LaunchesAppend(tock, rest);
    assert Launches(tock + rest) == Launches(rest);
    steps := PathAppend(env, m0, tock, m1, rest, Mach(RunWaves(env, m1.s, waves), Idle), Union(waves), true);
  }
}
