/** What a stretch of undisturbed driving can change, and what it cannot. */
module Frames {
  import opened Types
  import opened Driver
  import opened Machine
  import opened Interference
  import opened Accounting
  import opened Attempts
  import opened Dependencies

  predicate PcWithin(pc: Pc, jobs: set<JobId>, executing: bool) {
    match pc
    case Idle => true
    case Saw(id, _) => id in jobs
    case Armed(id, _) => id in jobs
    case Batch(todo) => executing && todo <= jobs
    case Settling(id, _, todo) => executing && id in jobs && todo <= jobs
    case Clearing(id, todo) => executing && id in jobs && todo <= jobs
    case Releasing(id, todo) => executing && id in jobs && todo <= jobs
    case Aborted(_) => false
  }

  /** Jobs outside `jobs` keep phase and counter; a job that is over stays over;
      and unless something executed, Running jobs stay Running, none is newly
      Failed, and no counter moves. */
  ghost predicate Frame(s: State, s': State, jobs: set<JobId>, executing: bool) {
    && s'.jobs == s.jobs && s.now <= s'.now
    && (forall id | id !in jobs || s.PhaseOf(id).Terminal() :: s'.PhaseOf(id) == s.PhaseOf(id))
    && (forall id | id !in jobs || !executing :: s'.AttemptsOf(id) == s.AttemptsOf(id))
    && (!executing ==>
          && s'.runs == s.runs
          && (forall id | s.PhaseOf(id).Running? :: s'.PhaseOf(id).Running?)
          && (forall id | s'.PhaseOf(id).Failed? :: s.PhaseOf(id).Failed?))
  }

  lemma FrameStep(env: Env, m: Mach, step: Step, jobs: set<JobId>, executing: bool)
    requires Remembers(m) && Next(env, m, step).Some?
    requires PcWithin(m.pc, jobs, executing) && StepWithin(step, jobs, executing)
    ensures var m' := Next(env, m, step).value;
            Remembers(m') && PcWithin(m'.pc, jobs, executing) && Frame(m.s, m'.s, jobs, executing)
  {
    hide Next, Remembers, PcWithin, Frame;
    RemembersKept(env, m, step);
    PcStep(env, m, step, jobs, executing);
    if step.Fire? {
      FrameFired(env, m, step, jobs, executing);
    } else {
      FrameSilent(env, m, step, jobs, executing);
    }
  }

  lemma FrameFired(env: Env, m: Mach, step: Step, jobs: set<JobId>, executing: bool)
    requires Remembers(m) && Next(env, m, step).Some? && step.Fire?
    requires PcWithin(m.pc, jobs, executing)
    ensures Frame(m.s, Next(env, m, step).value.s, jobs, executing)
  {
    StepEffect(env, m, step);
  }

  lemma FrameSilent(env: Env, m: Mach, step: Step, jobs: set<JobId>, executing: bool)
    requires Remembers(m) && Next(env, m, step).Some? && !step.Fire?
    requires PcWithin(m.pc, jobs, executing) && StepWithin(step, jobs, executing)
    ensures Frame(m.s, Next(env, m, step).value.s, jobs, executing)
  {
    var s, s' := m.s, Next(env, m, step).value.s;
    StepEffect(env, m, step);
    TimePasses(env, m, step);
    forall id | id !in jobs || !executing ensures s'.AttemptsOf(id) == s.AttemptsOf(id) {
      MemoryStep(env, m, step, id);
      hide Next;
    }
    hide Next, Remembers;
  }

  lemma PcStep(env: Env, m: Mach, step: Step, jobs: set<JobId>, executing: bool)
    requires Remembers(m) && Next(env, m, step).Some? && Remembers(Next(env, m, step).value)
    requires PcWithin(m.pc, jobs, executing) && StepWithin(step, jobs, executing)
    ensures PcWithin(Next(env, m, step).value.pc, jobs, executing)
  {
  }

  lemma FrameTrans(a: State, b: State, c: State, jobs: set<JobId>, executing: bool)
    requires Frame(a, b, jobs, executing) && Frame(b, c, jobs, executing)
    ensures Frame(a, c, jobs, executing)
  {
    forall id | id !in jobs || a.PhaseOf(id).Terminal() ensures c.PhaseOf(id) == a.PhaseOf(id) {
      assert b.PhaseOf(id) == a.PhaseOf(id);
    }
    forall id | id !in jobs || !executing ensures c.AttemptsOf(id) == a.AttemptsOf(id) {
      assert b.AttemptsOf(id) == a.AttemptsOf(id);
    }
  }

  lemma {:induction false} RunFrame(env: Env, m: Mach, steps: seq<Step>, jobs: set<JobId>, executing: bool)
    requires Remembers(m) && Run(env, m, steps).Some?
    requires PcWithin(m.pc, jobs, executing) && Within(steps, jobs, executing)
    ensures Frame(m.s, Run(env, m, steps).value.s, jobs, executing)
    decreases |steps|
  {
    if steps != [] {
      var m1 := Next(env, m, steps[0]).value;
      assert StepWithin(steps[0], jobs, executing);
      FrameStep(env, m, steps[0], jobs, executing);
      assert forall i | 0 <= i < |steps[1..]| :: steps[1..][i] == steps[i + 1];
      RunFrame(env, m1, steps[1..], jobs, executing);
      FrameTrans(m.s, m1.s, Run(env, m, steps).value.s, jobs, executing);
    }
  }

  /** Everything the other modules use about a path from Idle to Idle. */
  lemma PathFrame(env: Env, s: State, steps: seq<Step>, s': State, jobs: set<JobId>, executing: bool)
    requires Path(env, Mach(s, Idle), steps, Mach(s', Idle), jobs, executing)
    ensures Frame(s, s', jobs, executing)
    ensures Settled(env, s) ==> Settled(env, s')
    ensures Ordered(env, Mach(s, Idle)) ==> Ordered(env, Mach(s', Idle))
  {
    RunFrame(env, Mach(s, Idle), steps, jobs, executing);
    if Settled(env, s) {
      RunningWithinCaps(env, s, steps);
    }
    if Ordered(env, Mach(s, Idle)) {
      forall i | 0 <= i < |steps| ensures !steps[i].FromOperator() {
        assert StepWithin(steps[i], jobs, executing);
      }
      RunOrdered(env, Mach(s, Idle), steps);
    }
  }

  lemma DriveFrame(env: Env, s: State, id: JobId, fuel: nat)
    ensures Frame(s, Drive(env, s, id, fuel), {id}, false)
    ensures Settled(env, s) ==> Settled(env, Drive(env, s, id, fuel))
  {
    var steps := DrivePath(env, s, id, fuel);
    PathFrame(env, s, steps, Drive(env, s, id, fuel), {id}, false);
  }

  lemma DriveWaveFrame(env: Env, s: State, wave: seq<JobId>)
    ensures Frame(s, DriveWave(env, s, wave), Members(wave), false)
    ensures Settled(env, s) ==> Settled(env, DriveWave(env, s, wave))
  {
    var steps := DriveWavePath(env, s, wave);
    PathFrame(env, s, steps, DriveWave(env, s, wave), Members(wave), false);
  }

  lemma DrainWaveFrame(env: Env, s: State, wave: seq<JobId>)
    ensures Frame(s, DrainWave(env, s, wave), Members(wave), false)
  {
    var steps := DrainWavePath(env, s, wave);
    PathFrame(env, s, steps, DrainWave(env, s, wave), Members(wave), false);
  }

  lemma ExecuteFrame(env: Env, s: State, wave: seq<JobId>)
    requires Distinct(wave)
    ensures Frame(s, Execute(env, s, wave), Members(wave), true)
    ensures Settled(env, s) ==> Settled(env, Execute(env, s, wave))
  {
    var steps := ExecutePath(env, s, wave);
    PathFrame(env, s, steps, Execute(env, s, wave), Members(wave), true);
  }

  lemma RunWaveFrame(env: Env, s: State, wave: seq<JobId>)
    requires Distinct(wave)
    ensures Frame(s, RunWave(env, s, wave), Members(wave), true)
    ensures Settled(env, s) ==> Settled(env, RunWave(env, s, wave))
  {
    var steps := RunWavePath(env, s, wave);
    PathFrame(env, s, steps, RunWave(env, s, wave), Members(wave), true);
  }

  lemma RunWavesFrame(env: Env, s: State, waves: seq<seq<JobId>>)
    requires AllDistinct(waves)
    ensures Frame(s, RunWaves(env, s, waves), Union(waves), true)
    ensures Settled(env, s) ==> Settled(env, RunWaves(env, s, waves))
  {
    var steps := RunWavesPath(env, s, waves);
    PathFrame(env, s, steps, RunWaves(env, s, waves), Union(waves), true);
  }
}
