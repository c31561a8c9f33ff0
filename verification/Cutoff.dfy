/** How far up dependency safety reaches: to every ancestor where no gate skips, and
    past a skip not at all, since a skip is terminal and releases its dependants
    whatever lies above it. */
module Cutoff {
  import opened Types
  import opened Retry
  import opened Gate
  import opened Verdicts
  import opened Budget
  import opened Driver
  import opened Machine
  import opened Interference
  import opened LogHistory
  import opened Dependencies
  import opened Frames
  import opened Singles

  // ----- Gates that never skip -----

  ghost predicate GatesNeverSkip(env: Env) {
    forall id, s: State, i | 0 <= i < |env.GatesOf(id)| :: !env.GatesOf(id)[i](id, s.phases, s.now).Skip?
  }

  /** No job is skipped, and the thread holds no skipping verdict. */
  ghost predicate Unskipped(m: Mach) {
    && (forall id :: !m.s.PhaseOf(id).Skipped?)
    && (m.pc.Armed? && m.pc.signal.EvaluateGates? ==> !m.pc.signal.aggregate.SkippedBy?)
  }

  lemma VerdictNeverSkips(env: Env, s: State, id: JobId)
    requires GatesNeverSkip(env)
    ensures !GateVerdict(env, s, id).SkippedBy?
  {
    VerdictMeaning(env, s, id);
  }

  lemma UnskippedKept(env: Env, m: Mach, step: Step)
    requires GatesNeverSkip(env) && Remembers(m) && Unskipped(m)
    requires Next(env, m, step).Some? && !step.FromOperator()
    ensures Unskipped(Next(env, m, step).value)
  {
    hide GateVerdict;
    var m' := Next(env, m, step).value;
    StepEffect(env, m, step);
    if step.Choose? {
      VerdictNeverSkips(env, m.s, m.pc.id);
    }
    forall id ensures !m'.s.PhaseOf(id).Skipped? {
      assert !m.s.PhaseOf(id).Skipped?;
    }
  }

  lemma {:induction false} RunUnskipped(env: Env, m: Mach, steps: seq<Step>)
    requires GatesNeverSkip(env) && Remembers(m) && Unskipped(m)
    requires Run(env, m, steps).Some? && NoOperator(steps)
    ensures Unskipped(Run(env, m, steps).value)
    decreases |steps|
  {
    if steps != [] {
      RememberingStep(env, m, steps);
      UnskippedKept(env, m, steps[0]);
      RunUnskipped(env, Next(env, m, steps[0]).value, steps[1..]);
    }
  }

  /** Where no gate ever skips, every ancestor of a job past its gates is over, in
      every run without operator moves from a fresh scheduler. */
  lemma AllAncestorsOver(env: Env, s0: State, steps: seq<Step>, chain: seq<JobId>)
    requires GatesNeverSkip(env)
    requires Fresh(s0) && Run(env, Mach(s0, Idle), steps).Some? && NoOperator(steps)
    requires |chain| >= 2 && IsChain(env.graph, chain)
    ensures var s := Run(env, Mach(s0, Idle), steps).value.s;
            PastGates(s.PhaseOf(chain[|chain| - 1])) ==> s.PhaseOf(chain[0]).Terminal()
  {
    RunUnskipped(env, Mach(s0, Idle), steps);
    AncestorSafety(env, s0, steps, chain);
  }

  // ----- A gate that skips -----

  lemma DriveToSkipped(env: Env, s: State, id: JobId, i: nat)
    requires s.PhaseOf(id).Pending? || s.PhaseOf(id).Gated?
    requires i < |env.GatesOf(id)| && env.GatesOf(id)[i](id, s.phases, s.now).Skip?
    ensures Drive(env, s, id, FIRST_FUEL).PhaseOf(id).Skipped?
  {
    hide Drive;
    VerdictMeaning(env, s, id);
    var s1 := AdvanceOnce(env, s, id).0;
    assert s1.PhaseOf(id).Skipped?;
    DriveStep(env, s, id, FIRST_FUEL);
    DriveFrame(env, s1, id, FIRST_FUEL - 1);
  }

  /** The job's own gates neither wait nor skip. */
  ghost predicate Willing(env: Env, id: JobId) {
    forall s: State, i | 0 <= i < |env.GatesOf(id)| ::
      env.GatesOf(id)[i](id, s.phases, s.now).Pass? || env.GatesOf(id)[i](id, s.phases, s.now).NoClaim?
  }

  lemma DrivePastGates(env: Env, s: State, id: JobId)
    requires (s.PhaseOf(id).Pending? || s.PhaseOf(id).Gated?) && Willing(env, id) && UpstreamsOver(env.graph, s, id)
    ensures PastGates(Drive(env, s, id, FIRST_FUEL).PhaseOf(id))
  {
    hide Drive;
    VerdictMeaning(env, s, id);
    var s1 := AdvanceOnce(env, s, id).0;
    assert s1.PhaseOf(id).Ready?;
    DriveStep(env, s, id, FIRST_FUEL);
    ReadyStaysPast(env, s1, id);
  }

  lemma ReadyStaysPast(env: Env, s: State, id: JobId)
    requires s.PhaseOf(id).Ready?
    ensures PastGates(Drive(env, s, id, FIRST_FUEL - 1).PhaseOf(id))
  {
  }

  /** For any graph, any state and any three jobs one below the other: if a gate of
      the middle one skips it while the top one is open, then, with nothing else in
      the way, the bottom one gets past its gates with the top one still open. */
  lemma SkipReleases(env: Env, s: State, top: JobId, middle: JobId, bottom: JobId, i: nat)
    returns (steps: seq<Step>)
    requires IsChain(env.graph, [top, middle, bottom]) && top != middle && middle != bottom && top != bottom
    requires !s.PhaseOf(top).Terminal()
    requires s.PhaseOf(middle).Pending? || s.PhaseOf(middle).Gated?
    requires i < |env.GatesOf(middle)| && env.GatesOf(middle)[i](middle, s.phases, s.now).Skip?
    requires s.PhaseOf(bottom).Pending? || s.PhaseOf(bottom).Gated?
    requires Willing(env, bottom)
    requires forall u | u in env.graph.Predecessors(bottom) && u != middle :: s.PhaseOf(u).Terminal()
    ensures Run(env, Mach(s, Idle), steps).Some? && NoOperator(steps)
    ensures var s' := Run(env, Mach(s, Idle), steps).value.s;
            s'.PhaseOf(middle).Skipped? && PastGates(s'.PhaseOf(bottom)) && !s'.PhaseOf(top).Terminal()
  {
    hide Drive, Run;
    var s1 := Drive(env, s, middle, FIRST_FUEL);
    DriveToSkipped(env, s, middle, i);
    DriveFrame(env, s, middle, FIRST_FUEL);
    var s2 := Drive(env, s1, bottom, FIRST_FUEL);
    DrivePastGates(env, s1, bottom);
    DriveFrame(env, s1, bottom, FIRST_FUEL);
    var first := DrivePath(env, s, middle, FIRST_FUEL);
    var second := DrivePath(env, s1, bottom, FIRST_FUEL);
    var jobs := {middle, bottom};
    PathWiden(env, Mach(s, Idle), first, Mach(s1, Idle), {middle}, false, jobs);
    PathWiden(env, Mach(s1, Idle), second, Mach(s2, Idle), {bottom}, false, jobs);
    steps := PathAppend(env, Mach(s, Idle), first, Mach(s1, Idle), second, Mach(s2, Idle), jobs, false);
    forall k | 0 <= k < |steps| ensures !steps[k].FromOperator() {
      assert StepWithin(steps[k], jobs, false);
    }
  }

  // ----- A tick in which it happens -----

  const TOP := JobId(Global, JobKindId("top"), NoSubject)
  const MIDDLE := JobId(Global, JobKindId("middle"), NoSubject)
  const BOTTOM := JobId(Global, JobKindId("bottom"), NoSubject)

  const CHAIN := Graph({TOP, MIDDLE, BOTTOM}, {(TOP, MIDDLE), (MIDDLE, BOTTOM)})

  /** The top job fails and may retry after a second; the middle one is skipped. */
  const SKIPPING: Env :=
    Env(CHAIN, map[MIDDLE.kind := [(id, phases, n) => Skip(GateRejected)]], map[TOP.kind := Fixed(2, 1000)],
        Caps(None, map[], map[]), n => 0, (n, id) => if id == TOP then Errored else Completed, (n, ids) => ids)

  const ALL_PENDING: Phases := map[TOP := Pending, MIDDLE := Pending, BOTTOM := Pending]

  const START := State(ALL_PENDING, map[], map[], {TOP, MIDDLE, BOTTOM}, NO_SLOTS, [], [], 0)

  /** A first tick after which the bottom job has been executed with success, while
      the top job waits to be retried. */
  lemma SkipCutsOffAncestors()
    ensures Fresh(START) && Stratified(CHAIN, [[TOP], [MIDDLE], [BOTTOM]]) && IsChain(CHAIN, [TOP, MIDDLE, BOTTOM])
    ensures var s := Tick(SKIPPING, START, [[TOP], [MIDDLE], [BOTTOM]]);
            s.PhaseOf(TOP) == Retrying(1000) && s.PhaseOf(MIDDLE).Skipped? && s.PhaseOf(BOTTOM).Succeeded?
  {
    hide RunWave;
    Different();
    ChainStratified();
    var s0 := START.(now := 1);
    var s1 := RunWave(SKIPPING, s0, [TOP]);
    var s2 := RunWave(SKIPPING, s1, [MIDDLE]);
    ThreeWaves(SKIPPING, s0, [TOP], [MIDDLE], [BOTTOM]);
    TopFails(s0);
    RunWaveFrame(SKIPPING, s0, [TOP]);
    MiddleSkips(s1);
    RunWaveFrame(SKIPPING, s1, [MIDDLE]);
    BottomSucceeds(s2);
    RunWaveFrame(SKIPPING, s2, [BOTTOM]);
  }

  lemma TopFails(s: State)
    requires s.PhaseOf(TOP).Pending? && s.AttemptsOf(TOP) == 0
    ensures RunWave(SKIPPING, s, [TOP]).PhaseOf(TOP) == Retrying(1000)
  {
    hide DriveWave, Execute, DrainWave, Drive;
    Different();
    assert CHAIN.Predecessors(TOP) == {};
    FailedExecution(SKIPPING, s, TOP);
    var s2 := Execute(SKIPPING, DriveWave(SKIPPING, s, [TOP]), [TOP]);
    OneDriven(SKIPPING, s2, TOP);
    DrainedFailure(SKIPPING, s2, TOP, 2, 1000);
  }

  lemma MiddleSkips(s: State)
    requires s.PhaseOf(MIDDLE).Pending?
    ensures RunWave(SKIPPING, s, [MIDDLE]).PhaseOf(MIDDLE).Skipped?
  {
    hide DriveWave, Execute, DrainWave, Drive;
    var s1 := DriveWave(SKIPPING, s, [MIDDLE]);
    OneDriven(SKIPPING, s, MIDDLE);
    DriveToSkipped(SKIPPING, Seed(s, MIDDLE), MIDDLE, 0);
    ExecuteFrame(SKIPPING, s1, [MIDDLE]);
    DrainWaveFrame(SKIPPING, Execute(SKIPPING, s1, [MIDDLE]), [MIDDLE]);
  }

  lemma BottomSucceeds(s: State)
    requires s.PhaseOf(BOTTOM).Pending? && s.PhaseOf(MIDDLE).Skipped? && BOTTOM in s.jobs
    ensures RunWave(SKIPPING, s, [BOTTOM]).PhaseOf(BOTTOM).Succeeded?
  {
    hide RunWave;
    Different();
    assert CHAIN.Predecessors(BOTTOM) == {MIDDLE};
    CompletedWave(SKIPPING, s, BOTTOM);
  }

  lemma Different()
    ensures TOP.kind != MIDDLE.kind && MIDDLE.kind != BOTTOM.kind && TOP.kind != BOTTOM.kind
  {
    assert TOP.kind.name[0] != MIDDLE.kind.name[0] && MIDDLE.kind.name[0] != BOTTOM.kind.name[0];
    assert TOP.kind.name[0] != BOTTOM.kind.name[0];
  }

  lemma ThreeWaves(env: Env, s: State, a: seq<JobId>, b: seq<JobId>, c: seq<JobId>)
    ensures RunWaves(env, s, [a, b, c]) == RunWave(env, RunWave(env, RunWave(env, s, a), b), c)
  {
    hide RunWave;
    assert [a, b, c][1..] == [b, c] && [b, c][1..] == [c] && [c][1..] == [];
    assert RunWaves(env, RunWave(env, s, a), [b, c]) == RunWaves(env, RunWave(env, RunWave(env, s, a), b), [c]);
  }

  lemma ChainStratified()
    ensures Stratified(CHAIN, [[TOP], [MIDDLE], [BOTTOM]])
  {
    Different();
    var waves := [[TOP], [MIDDLE], [BOTTOM]];
    assert TOP in waves[0] && MIDDLE in waves[1] && BOTTOM in waves[2];
    assert waves[..0] == [] && waves[..1] == [[TOP]] && waves[..2] == [[TOP], [MIDDLE]];
    assert TOP in waves[..1][0] && MIDDLE in waves[..2][1];
    assert CHAIN.Predecessors(TOP) == {} && CHAIN.Predecessors(MIDDLE) == {TOP} && CHAIN.Predecessors(BOTTOM) == {MIDDLE};
  }
}
