/** Bounded convergence: with room for one job, gates that never wait, no panics
    and deadlines that have passed, every tick pays something off, so every job of
    the graph is over after as many ticks as the policies allow failures. */
module Convergence {
  import opened Types
  import opened Retry
  import opened Verdicts
  import opened Budget
  import opened Driver
  import opened Machine
  import opened Interference
  import opened Accounting
  import opened Attempts
  import opened LogHistory
  import opened Dependencies
  import opened Frames
  import opened Fuel

  // ----- The assumptions -----

  predicate PoliciesBounded(env: Env) {
    forall kind | kind in env.policies :: !env.policies[kind].Custom?
  }

  ghost predicate GatesNeverWait(env: Env) {
    forall id, s: State, i | 0 <= i < |env.GatesOf(id)| :: !env.GatesOf(id)[i](id, s.phases, s.now).Wait?
  }

  ghost predicate NoPanics(env: Env) {
    forall moment, id :: !env.outcome(moment, id).Panicked?
  }

  predicate RoomForOne(caps: Caps) {
    && (caps.global.Some? ==> caps.global.value >= 1)
    && (forall k | k in caps.byKind :: caps.byKind[k] >= 1)
    && (forall c | c in caps.byScope :: caps.byScope[c] >= 1)
  }

  ghost predicate Favourable(env: Env) {
    PoliciesBounded(env) && GatesNeverWait(env) && NoPanics(env) && RoomForOne(env.caps)
  }

  ghost predicate DeadlinePast(env: Env, s: State, id: JobId) {
    s.PhaseOf(id).Retrying? ==> forall t: nat | s.now <= t :: env.clock(t) >= s.PhaseOf(id).untilMs
  }

  // ----- What a job still owes -----

  function Allowance(env: Env, id: JobId): nat
    requires PoliciesBounded(env)
  {
    env.PolicyOf(id).Allowance()
  }

  /** Failed executions the job may still have; nothing once it is over. */
  function Owed(env: Env, s: State, id: JobId): int
    requires PoliciesBounded(env)
  {
    if s.PhaseOf(id).Terminal() then 0 else Allowance(env, id) - s.AttemptsOf(id)
  }

  predicate SolventJob(env: Env, m: Mach, id: JobId)
    requires PoliciesBounded(env)
  {
    var spent, allowed := m.s.AttemptsOf(id), Allowance(env, id);
    var settling := m.pc.Settling? && m.pc.id == id;
    !m.s.PhaseOf(id).Terminal() ==>
      && spent <= allowed
      && (spent == allowed ==> m.s.PhaseOf(id).Failed? || settling)
      && (m.s.PhaseOf(id).Failed? || (settling && m.pc.signal.ExecutionFailed?) ==> spent >= 1)
      && (m.pc.Armed? && m.pc.id == id && m.pc.signal.RetryDecide? && m.pc.signal.outcome.Retry? ==> spent < allowed)
  }

  ghost predicate Solvent(env: Env, m: Mach)
    requires PoliciesBounded(env)
  {
    forall id :: SolventJob(env, m, id)
  }

  lemma SolventStep(env: Env, m: Mach, step: Step, id: JobId)
    requires PoliciesBounded(env) && Remembers(m) && SolventJob(env, m, id)
    requires Next(env, m, step).Some? && !step.FromOperator()
    ensures SolventJob(env, Next(env, m, step).value, id)
    ensures Owed(env, Next(env, m, step).value.s, id) <= Owed(env, m.s, id)
  {
    hide Next, Remembers, SolventJob;
    if step.Fire? {
      SolventFired(env, m, step, id);
    } else {
      SolventSilent(env, m, step, id);
    }
  }

  lemma SolventFired(env: Env, m: Mach, step: Step, id: JobId)
    requires PoliciesBounded(env) && Remembers(m) && SolventJob(env, m, id)
    requires Next(env, m, step).Some? && step.Fire?
    ensures SolventJob(env, Next(env, m, step).value, id)
    ensures Owed(env, Next(env, m, step).value.s, id) <= Owed(env, m.s, id)
  {
    hide Allowance;
    StepEffect(env, m, step);
  }

  lemma SolventChosen(env: Env, m: Mach, id: JobId)
    requires PoliciesBounded(env) && Remembers(m) && SolventJob(env, m, id) && Next(env, m, Choose).Some?
    ensures SolventJob(env, Next(env, m, Choose).value, id)
    ensures Owed(env, Next(env, m, Choose).value.s, id) == Owed(env, m.s, id)
  {
    hide GateVerdict, Refusal, Take, Advance, Allowance;
    if m.pc.id == id && m.pc.from.Failed? {
      RetryOnlyBelowAllowance(env.PolicyOf(id), m.s.AttemptsOf(id), m.s.HistoryOf(id));
      assert env.PolicyOf(id).Allowance() == Allowance(env, id) by {
        AllowanceIs(env, id);
      }
    }
  }

  lemma AllowanceIs(env: Env, id: JobId)
    requires PoliciesBounded(env)
    ensures env.PolicyOf(id).Allowance() == Allowance(env, id)
  {
  }

  lemma SolventSilent(env: Env, m: Mach, step: Step, id: JobId)
    requires PoliciesBounded(env) && Remembers(m) && SolventJob(env, m, id)
    requires Next(env, m, step).Some? && !step.FromOperator() && !step.Fire?
    ensures SolventJob(env, Next(env, m, step).value, id)
    ensures Owed(env, Next(env, m, step).value.s, id) <= Owed(env, m.s, id)
  {
    hide Act, Trim, Advance, GiveBack, Allowance;
    if step.Choose? {
      SolventChosen(env, m, id);
    } else {
      StepEffect(env, m, step);
      MemoryStep(env, m, step, id);
    }
  }

  lemma {:induction false} RunSolvent(env: Env, m: Mach, steps: seq<Step>, id: JobId)
    requires PoliciesBounded(env) && Remembers(m) && SolventJob(env, m, id)
    requires Run(env, m, steps).Some? && NoOperator(steps)
    ensures SolventJob(env, Run(env, m, steps).value, id)
    ensures Owed(env, Run(env, m, steps).value.s, id) <= Owed(env, m.s, id)
    decreases |steps|
  {
    if steps != [] {
      RememberingStep(env, m, steps);
      SolventStep(env, m, steps[0], id);
      RunSolvent(env, Next(env, m, steps[0]).value, steps[1..], id);
    }
  }

  /** Nothing the driver does adds to what any job owes. */
  lemma PathOwed(env: Env, s: State, steps: seq<Step>, s': State, jobs: set<JobId>, executing: bool)
    requires PoliciesBounded(env) && Solvent(env, Mach(s, Idle))
    requires Path(env, Mach(s, Idle), steps, Mach(s', Idle), jobs, executing)
    ensures Solvent(env, Mach(s', Idle))
    ensures forall id :: Owed(env, s', id) <= Owed(env, s, id)
  {
    forall i | 0 <= i < |steps| ensures !steps[i].FromOperator() {
      assert StepWithin(steps[i], jobs, executing);
    }
    forall id ensures SolventJob(env, Mach(s', Idle), id) && Owed(env, s', id) <= Owed(env, s, id) {
      RunSolvent(env, Mach(s, Idle), steps, id);
    }
  }

  /** The later state is solvent and no job owes more. */
  ghost predicate PaidDown(env: Env, s: State, s': State)
    requires PoliciesBounded(env)
  {
    Solvent(env, Mach(s', Idle)) && forall id :: Owed(env, s', id) <= Owed(env, s, id)
  }

  lemma DriveWaveOwed(env: Env, s: State, wave: seq<JobId>)
    requires PoliciesBounded(env) && Solvent(env, Mach(s, Idle))
    ensures PaidDown(env, s, DriveWave(env, s, wave))
  {
    var steps := DriveWavePath(env, s, wave);
    PathOwed(env, s, steps, DriveWave(env, s, wave), Members(wave), false);
  }

  lemma ExecuteOwed(env: Env, s: State, wave: seq<JobId>)
    requires PoliciesBounded(env) && Solvent(env, Mach(s, Idle)) && Distinct(wave)
    ensures PaidDown(env, s, Execute(env, s, wave))
  {
    var steps := ExecutePath(env, s, wave);
    PathOwed(env, s, steps, Execute(env, s, wave), Members(wave), true);
  }

  lemma DrainWaveOwed(env: Env, s: State, wave: seq<JobId>)
    requires PoliciesBounded(env) && Solvent(env, Mach(s, Idle))
    ensures PaidDown(env, s, DrainWave(env, s, wave))
  {
    var steps := DrainWavePath(env, s, wave);
    PathOwed(env, s, steps, DrainWave(env, s, wave), Members(wave), false);
  }

  lemma RunWavesOwed(env: Env, s: State, waves: seq<seq<JobId>>)
    requires PoliciesBounded(env) && Solvent(env, Mach(s, Idle)) && AllDistinct(waves)
    ensures PaidDown(env, s, RunWaves(env, s, waves))
  {
    var steps := RunWavesPath(env, s, waves);
    PathOwed(env, s, steps, RunWaves(env, s, waves), Union(waves), true);
  }

  // ----- Something is executed or skipped in every tick -----

  /** Each result lands on its own job, whatever the order of arrival. */
  lemma {:induction false} ApplyAllHits(env: Env, s: State, arrivals: seq<JobId>, moment: nat, id: JobId)
    requires Launchable(s, arrivals) && id in arrivals
    ensures var s' := ApplyAll(env, s, arrivals, moment);
            match ResultOf(env, s, moment, id)
            case Completed => s'.PhaseOf(id).Succeeded?
            case Errored => s'.PhaseOf(id).Failed? && s'.AttemptsOf(id) == s.AttemptsOf(id) + 1
            case Panicked => s'.PhaseOf(id).Running? && s'.AttemptsOf(id) == s.AttemptsOf(id)
    decreases |arrivals|
  {
    hide ApplyResult;
    var first := arrivals[0];
    var outcome := ResultOf(env, s, moment, first);
    ApplyResultFrame(env, s, first, outcome.Completed?);
    assert forall x | x in arrivals[1..] :: x in arrivals && x != first;
    var s1 := if outcome.Panicked? then s else ApplyResult(env, s, first, outcome.Completed?);
    if id == first {
      ApplyAllMisses(env, s1, arrivals[1..], moment, id);
    } else {
      ApplyAllHits(env, s1, arrivals[1..], moment, id);
    }
  }

  lemma {:induction false} ApplyAllMisses(env: Env, s: State, arrivals: seq<JobId>, moment: nat, id: JobId)
    requires Launchable(s, arrivals) && id !in arrivals
    ensures var s' := ApplyAll(env, s, arrivals, moment);
            s'.PhaseOf(id) == s.PhaseOf(id) && s'.AttemptsOf(id) == s.AttemptsOf(id)
    decreases |arrivals|
  {
    if arrivals != [] {
      var first := arrivals[0];
      var outcome := ResultOf(env, s, moment, first);
      if !outcome.Panicked? {
        ApplyResultFrame(env, s, first, outcome.Completed?);
      }
      assert forall x | x in arrivals[1..] :: x in arrivals && x != first;
      var s1 := if outcome.Panicked? then s else ApplyResult(env, s, first, outcome.Completed?);
      ApplyAllMisses(env, s1, arrivals[1..], moment, id);
    }
  }

  /** A Running job of the wave is executed, and owes less for it. */
  lemma ExecutePays(env: Env, s: State, wave: seq<JobId>, id: JobId)
    requires Favourable(env) && Solvent(env, Mach(s, Idle)) && Distinct(wave)
    requires id in wave && s.PhaseOf(id).Running?
    ensures Owed(env, Execute(env, s, wave), id) < Owed(env, s, id)
  {
    hide ApplyAll, RunningIn, Allowance;
    RunningInFacts(s, wave);
    var ids := RunningIn(s, wave);
    var arrivals := env.ArrivalOrder(s.now, ids);
    ArrivalFacts(env, s, wave, ids, arrivals);
    assert id in Members(arrivals);
    ApplyAllHits(env, s.(runs := s.runs + ids, now := s.now + 1), arrivals, s.now, id);
    assert SolventJob(env, Mach(s, Idle), id);
  }

  lemma RunWavePays(env: Env, s: State, wave: seq<JobId>, id: JobId)
    requires Favourable(env) && Solvent(env, Mach(s, Idle)) && Distinct(wave)
    requires id in wave && DriveWave(env, s, wave).PhaseOf(id).Running?
    ensures Owed(env, RunWave(env, s, wave), id) < Owed(env, s, id)
  {
    var s1 := DriveWave(env, s, wave);
    var s2 := Execute(env, s1, wave);
    DriveWaveOwed(env, s, wave);
    ExecutePays(env, s1, wave, id);
    ExecuteOwed(env, s1, wave);
    DrainWaveOwed(env, s2, wave);
  }

  lemma RunWaveOwed(env: Env, s: State, wave: seq<JobId>)
    requires PoliciesBounded(env) && Solvent(env, Mach(s, Idle)) && Distinct(wave)
    ensures PaidDown(env, s, RunWave(env, s, wave))
  {
    var steps := RunWavePath(env, s, wave);
    PathOwed(env, s, steps, RunWave(env, s, wave), Members(wave), true);
  }

  lemma UnionSplit(waves: seq<seq<JobId>>)
    requires waves != []
    ensures Union(waves) == Members(waves[0]) + Union(waves[1..])
    ensures AllDistinct(waves) ==> AllDistinct(waves[1..])
    ensures AllDisjoint(waves) ==> AllDisjoint(waves[1..]) && Members(waves[0]) !! Union(waves[1..])
  {
    var rest := waves[1..];
    assert forall k | 0 <= k < |rest| :: rest[k] == waves[k + 1];
    forall id ensures id in Union(waves) <==> id in Members(waves[0]) || id in Union(rest) {
      if id in Union(waves) {
        var k :| 0 <= k < |waves| && id in waves[k];
        assert k == 0 || id in rest[k - 1];
      }
      if id in Union(rest) {
        var k :| 0 <= k < |rest| && id in rest[k];
        assert id in waves[k + 1];
      }
    }
    if AllDisjoint(waves) {
      forall id | id in Union(rest) ensures id !in Members(waves[0]) {
        var k :| 0 <= k < |rest| && id in rest[k];
        assert id in Members(waves[k + 1]);
      }
    }
  }

  /** A Running job of a later wave is still Running when its wave comes. */
  lemma {:induction false} RunningIsExecuted(env: Env, s: State, waves: seq<seq<JobId>>, id: JobId)
    requires Favourable(env) && Solvent(env, Mach(s, Idle))
    requires AllDistinct(waves) && AllDisjoint(waves)
    requires id in Union(waves) && s.PhaseOf(id).Running?
    ensures Owed(env, RunWaves(env, s, waves), id) < Owed(env, s, id)
    decreases |waves|
  {
    var s1 := RunWave(env, s, waves[0]);
    UnionSplit(waves);
    RunWaveOwed(env, s, waves[0]);
    if id in waves[0] {
      DriveWaveFrame(env, s, waves[0]);
      RunWavePays(env, s, waves[0], id);
      RunWavesOwed(env, s1, waves[1..]);
    } else {
      RunWaveFrame(env, s, waves[0]);
      RunningIsExecuted(env, s1, waves[1..], id);
    }
  }

  /** A refusal means somebody holds a slot. */
  lemma RefusedMeansHeld(env: Env, s: State, id: JobId)
    requires RoomForOne(env.caps) && Settled(env, s)
    requires Refusal(env.caps, s.slots, id).Some?
    ensures Holders(s.phases) != {}
  {
    SubsetSize(OfKind(Holders(s.phases), id.kind), Holders(s.phases));
    SubsetSize(OfScope(Holders(s.phases), id.scope), Holders(s.phases));
  }

  lemma VerdictWithoutWait(env: Env, s: State, id: JobId)
    requires GatesNeverWait(env) && UpstreamsOver(env.graph, s, id)
    ensures !GateVerdict(env, s, id).SomeWaiting?
  {
    VerdictMeaning(env, s, id);
  }

  /** The job is Skipped, or somebody is Running. */
  ghost predicate Landed(s: State, id: JobId) {
    s.PhaseOf(id).Skipped? || Holders(s.phases) != {}
  }

  predicate Drivable(phase: JobPhase) {
    phase.Pending? || phase.Gated? || phase.Ready? || phase.Running? || phase.Retrying?
  }

  lemma LandedStays(s: State, s': State, jobs: set<JobId>, id: JobId)
    requires Landed(s, id) && Frame(s, s', jobs, false)
    ensures Landed(s', id)
  {
    if Holders(s.phases) != {} {
      var r :| r in Holders(s.phases);
      assert s.PhaseOf(r).Running?;
      assert r in Holders(s'.phases);
    }
  }

  lemma AdvanceOnceFrame(env: Env, s: State, id: JobId)
    ensures Frame(s, AdvanceOnce(env, s, id).0, {id}, false)
    ensures Settled(env, s) ==> Settled(env, AdvanceOnce(env, s, id).0)
  {
    var steps := AdvanceOncePath(env, s, id);
    PathFrame(env, s, steps, AdvanceOnce(env, s, id).0, {id}, false);
  }

  /** Skipped, Running, or Ready and refused a slot. */
  predicate Placed(env: Env, s: State, id: JobId) {
    var phase := s.PhaseOf(id);
    phase.Skipped? || phase.Running? || (phase.Ready? && Refusal(env.caps, s.slots, id).Some?)
  }

  /** One step of a drivable job places it, or moves it on to a drivable phase. */
  lemma AdvancePlaces(env: Env, s: State, id: JobId)
    requires GatesNeverWait(env) && UpstreamsOver(env.graph, s, id)
    requires Drivable(s.PhaseOf(id)) && !s.PhaseOf(id).Running? && DeadlinePast(env, s, id)
    ensures var (s', progressed) := AdvanceOnce(env, s, id);
            var phase := s'.PhaseOf(id);
            if progressed then phase.Ready? || phase.Pending? || phase.Running? || phase.Skipped?
            else Placed(env, s', id)
  {
    hide GateVerdict;
    VerdictWithoutWait(env, s, id);
  }

  /** Where no gate waits, a job whose upstreams are over and whose deadline is past
      ends pass 1 Skipped, Running, or Ready and refused a slot. */
  lemma {:induction false} DrivePlaces(env: Env, s: State, id: JobId, fuel: nat)
    requires GatesNeverWait(env) && UpstreamsOver(env.graph, s, id)
    requires Drivable(s.PhaseOf(id)) && DeadlinePast(env, s, id) && fuel > Height(s.PhaseOf(id))
    ensures Placed(env, Drive(env, s, id, fuel), id)
    decreases fuel
  {
    hide AdvanceOnce;
    if !s.PhaseOf(id).Running? {
      var (s', progressed) := AdvanceOnce(env, s, id);
      AdvancePlaces(env, s, id);
      AdvanceOnceFrame(env, s, id);
      ProgressDescends(env, s, id);
      if progressed {
        if s'.PhaseOf(id).Skipped? {
          DriveFrame(env, s', id, fuel - 1);
        } else {
          DrivePlaces(env, s', id, fuel - 1);
        }
      }
    }
  }

  /** So it is Skipped, or somebody holds a slot. */
  lemma DriveLands(env: Env, s: State, id: JobId, fuel: nat)
    requires Favourable(env) && Settled(env, s) && UpstreamsOver(env.graph, s, id)
    requires Drivable(s.PhaseOf(id)) && DeadlinePast(env, s, id) && fuel > Height(s.PhaseOf(id))
    ensures Landed(Drive(env, s, id, fuel), id)
  {
    hide Drive;
    var s' := Drive(env, s, id, fuel);
    DrivePlaces(env, s, id, fuel);
    DriveFrame(env, s, id, fuel);
    if s'.PhaseOf(id).Running? {
      assert id in Holders(s'.phases);
    } else if s'.PhaseOf(id).Ready? {
      RefusedMeansHeld(env, s', id);
    }
  }
}
