/** What a single tick does: it executes no job twice, and in the plainest setting
    it computes a map from execution results to terminal phases. */
module TickOnce {
  import opened Types
  import opened Gate
  import opened Budget
  import opened Driver
  import opened Machine
  import opened Dependencies
  import opened Frames
  import opened Convergence

  // ----- At most one execution per job and tick -----

  lemma {:induction false} ApplyAllStartsNothing(env: Env, s: State, arrivals: seq<JobId>, moment: nat)
    ensures ApplyAll(env, s, arrivals, moment).runs == s.runs
    decreases |arrivals|
  {
    if arrivals != [] {
      var outcome := ResultOf(env, s, moment, arrivals[0]);
      var s1 := if outcome.Panicked? then s else ApplyResult(env, s, arrivals[0], outcome.Completed?);
      ApplyAllStartsNothing(env, s1, arrivals[1..], moment);
    }
  }

  lemma ExecuteStarts(env: Env, s: State, wave: seq<JobId>)
    ensures Execute(env, s, wave).runs == s.runs + RunningIn(s, wave)
  {
    hide ApplyAll;
    var ids := RunningIn(s, wave);
    ApplyAllStartsNothing(env, s.(runs := s.runs + ids, now := s.now + 1), env.ArrivalOrder(s.now, ids), s.now);
  }

  lemma PassesStartNothing(env: Env, s: State, wave: seq<JobId>)
    ensures DriveWave(env, s, wave).runs == s.runs
    ensures DrainWave(env, s, wave).runs == s.runs
  {
    DriveWaveFrame(env, s, wave);
    DrainWaveFrame(env, s, wave);
  }

  /** A wave executes exactly the jobs its first pass left Running; one that its
      last pass makes Running waits for the next tick. */
  lemma RunWaveRuns(env: Env, s: State, wave: seq<JobId>)
    ensures RunWave(env, s, wave).runs == s.runs + RunningIn(DriveWave(env, s, wave), wave)
  {
    var s1 := DriveWave(env, s, wave);
    PassesStartNothing(env, s, wave);
    ExecuteStarts(env, s1, wave);
    PassesStartNothing(env, Execute(env, s1, wave), wave);
  }

  lemma DistinctJoin(first: seq<JobId>, rest: seq<JobId>, a: set<JobId>, b: set<JobId>)
    requires Distinct(first) && Distinct(rest) && Members(first) <= a && Members(rest) <= b && a !! b
    ensures Distinct(first + rest) && Members(first + rest) <= a + b
  {
    forall x | x in Members(first + rest) ensures x in a + b {
      assert x in first || x in rest;
    }
    forall i, j | 0 <= i < j < |first + rest| ensures (first + rest)[i] != (first + rest)[j] {
      if i < |first| <= j {
        assert first[i] in Members(first) && rest[j - |first|] in Members(rest);
      }
    }
  }

  lemma {:induction false} RunWavesRuns(env: Env, s: State, waves: seq<seq<JobId>>) returns (executed: seq<JobId>)
    requires AllDistinct(waves) && AllDisjoint(waves)
    ensures RunWaves(env, s, waves).runs == s.runs + executed
    ensures Distinct(executed) && Members(executed) <= Union(waves)
    decreases |waves|
  {
    hide RunWave, DriveWave;
    executed := [];
    if waves != [] {
      var first := RunningIn(DriveWave(env, s, waves[0]), waves[0]);
      RunningInFacts(DriveWave(env, s, waves[0]), waves[0]);
      RunWaveRuns(env, s, waves[0]);
      UnionSplit(waves);
      var rest := RunWavesRuns(env, RunWave(env, s, waves[0]), waves[1..]);
      DistinctJoin(first, rest, Members(waves[0]), Union(waves[1..]));
      executed := first + rest;
    }
  }

  /** No tick executes a job twice. */
  lemma TickExecutesOnce(env: Env, s: State, waves: seq<seq<JobId>>) returns (executed: seq<JobId>)
    requires Stratified(env.graph, waves)
    ensures Tick(env, s, waves).runs == s.runs + executed
    ensures Distinct(executed) && Members(executed) <= env.graph.nodes
  {
    hide RunWaves;
    executed := RunWavesRuns(env, s.(now := s.now + 1), waves);
  }

  // ----- The same with operators at work -----

  function Flat(batches: seq<seq<JobId>>): seq<JobId> {
    if batches == [] then [] else batches[0] + Flat(batches[1..])
  }

  /** The record of executions grows by the batches started, each without repetition. */
  lemma {:induction false} RunLaunches(env: Env, m: Mach, steps: seq<Step>)
    requires Run(env, m, steps).Some?
    ensures Run(env, m, steps).value.s.runs == m.s.runs + Flat(Launches(steps))
    ensures forall b | b in Launches(steps) :: Distinct(b)
    decreases |steps|
  {
    if steps != [] {
      StepLaunches(env, m, steps[0]);
      RunLaunches(env, Next(env, m, steps[0]).value, steps[1..]);
      if steps[0].Launch? {
        assert Launches(steps)[0] == steps[0].ids && Launches(steps)[1..] == Launches(steps[1..]);
      } else {
        assert Launches(steps) == Launches(steps[1..]);
      }
    }
  }

  lemma StepLaunches(env: Env, m: Mach, step: Step)
    requires Next(env, m, step).Some?
    ensures var runs := Next(env, m, step).value.s.runs;
            if step.Launch? then runs == m.s.runs + step.ids && Distinct(step.ids) else runs == m.s.runs
  {
  }

  lemma {:induction false} PlannedDistinct(batches: seq<seq<JobId>>, waves: seq<seq<JobId>>)
    requires Planned(batches, waves) && AllDisjoint(waves) && forall b | b in batches :: Distinct(b)
    ensures Distinct(Flat(batches)) && Members(Flat(batches)) <= Union(waves)
    decreases |waves|
  {
    if waves != [] {
      UnionSplit(waves);
      if Planned(batches, waves[1..]) {
        PlannedDistinct(batches, waves[1..]);
      } else {
        PlannedDistinct(batches[1..], waves[1..]);
        DistinctJoin(batches[0], Flat(batches[1..]), Members(waves[0]), Union(waves[1..]));
      }
    }
  }

  /** A tick thread starts at most one batch per wave, of that wave's jobs. Whatever
      operators and registrations do in between, it executes no job twice: a job reset
      by an operator during a tick waits for the next one. */
  lemma ExecutesOnceInterleaved(env: Env, m: Mach, steps: seq<Step>, waves: seq<seq<JobId>>)
    returns (executed: seq<JobId>)
    requires Run(env, m, steps).Some? && Planned(Launches(steps), waves) && AllDisjoint(waves)
    ensures Run(env, m, steps).value.s.runs == m.s.runs + executed
    ensures Distinct(executed) && Members(executed) <= Union(waves)
  {
    RunLaunches(env, m, steps);
    PlannedDistinct(Launches(steps), waves);
    executed := Flat(Launches(steps));
  }

  // ----- One tick refines a map -----

  /** No kind gates, no caps, no retries, and a result per job that does not vary. */
  ghost predicate Plain(env: Env, result: JobId -> bool) {
    && env.gates == map[]
    && env.caps == Caps(None, map[], map[])
    && (forall kind | kind in env.policies :: env.policies[kind].NoRetry?)
    && (forall moment, id :: env.outcome(moment, id) == if result(id) then Completed else Errored)
  }

  /** What a job comes to: its own result, or Deadlettered where nobody registered it. */
  function FinalPhase(s: State, result: JobId -> bool, id: JobId): JobPhase {
    if id in s.jobs && result(id) then Succeeded else Deadlettered
  }

  lemma PlainDrive(env: Env, result: JobId -> bool, s: State, id: JobId)
    requires Plain(env, result) && s.PhaseOf(id).Pending? && UpstreamsOver(env.graph, s, id)
    ensures Drive(env, s, id, FIRST_FUEL).PhaseOf(id).Running?
  {
    var outcomes := [UpstreamVerdict(env.graph.Predecessors(id), s.phases)] + KindOutcomes(env, s, id);
    AggregateMeaning(outcomes);
    assert outcomes == [UpstreamVerdict(env.graph.Predecessors(id), s.phases)];
    var s1 := AdvanceOnce(env, s, id).0;
    assert s1.PhaseOf(id).Ready?;
    var s2 := AdvanceOnce(env, s1, id).0;
    assert s2.PhaseOf(id).Running?;
    assert Drive(env, s, id, FIRST_FUEL) == Drive(env, s1, id, FIRST_FUEL - 1) == Drive(env, s2, id, FIRST_FUEL - 2);
  }

  lemma {:induction false} PlainDriveWave(env: Env, result: JobId -> bool, s: State, wave: seq<JobId>)
    requires Plain(env, result) && Distinct(wave)
    requires forall id | id in wave :: s.PhaseOf(id).Pending? && UpstreamsOver(env.graph, s, id)
    ensures forall id | id in wave :: DriveWave(env, s, wave).PhaseOf(id).Running?
    decreases |wave|
  {
    if wave != [] {
      var s0 := Seed(s, wave[0]);
      assert forall id :: s0.PhaseOf(id) == s.PhaseOf(id);
      var s1 := Drive(env, s0, wave[0], FIRST_FUEL);
      PlainDrive(env, result, s0, wave[0]);
      DriveFrame(env, s0, wave[0], FIRST_FUEL);
      forall id | id in wave[1..] ensures s1.PhaseOf(id).Pending? && UpstreamsOver(env.graph, s1, id) {
        assert id in wave && id != wave[0];
      }
      PlainDriveWave(env, result, s1, wave[1..]);
      DriveWaveFrame(env, s1, wave[1..]);
    }
  }

  lemma PlainExecute(env: Env, result: JobId -> bool, s: State, wave: seq<JobId>, id: JobId)
    requires Plain(env, result) && Distinct(wave) && id in wave && s.PhaseOf(id).Running?
    ensures var phase := Execute(env, s, wave).PhaseOf(id);
            if id in s.jobs && result(id) then phase.Succeeded? else phase.Failed?
  {
    hide ApplyAll;
    RunningInFacts(s, wave);
    var ids := RunningIn(s, wave);
    var arrivals := env.ArrivalOrder(s.now, ids);
    ArrivalFacts(env, s, wave, ids, arrivals);
    assert id in Members(arrivals);
    ApplyAllHits(env, s.(runs := s.runs + ids, now := s.now + 1), arrivals, s.now, id);
  }

  lemma {:induction false} PlainDrain(env: Env, result: JobId -> bool, s: State, wave: seq<JobId>, id: JobId)
    requires Plain(env, result) && id in wave
    ensures s.PhaseOf(id).Failed? ==> DrainWave(env, s, wave).PhaseOf(id).Deadlettered?
    decreases |wave|
  {
    if s.PhaseOf(id).Failed? {
      var s1 := Drive(env, s, wave[0], DRAIN_FUEL);
      if id == wave[0] {
        var s0 := AdvanceOnce(env, s, id).0;
        assert s0.PhaseOf(id).Deadlettered?;
        assert s1 == Drive(env, s0, id, DRAIN_FUEL - 1);
        DriveFrame(env, s0, id, DRAIN_FUEL - 1);
        DrainWaveFrame(env, s1, wave[1..]);
      } else {
        DriveFrame(env, s, wave[0], DRAIN_FUEL);
        PlainDrain(env, result, s1, wave[1..], id);
      }
    }
  }

  lemma PlainWave(env: Env, result: JobId -> bool, s: State, wave: seq<JobId>, id: JobId)
    requires Plain(env, result) && Distinct(wave) && id in wave
    requires forall x | x in wave :: s.PhaseOf(x).Pending? && UpstreamsOver(env.graph, s, x)
    ensures RunWave(env, s, wave).PhaseOf(id) == FinalPhase(s, result, id)
  {
    var s1 := DriveWave(env, s, wave);
    var s2 := Execute(env, s1, wave);
    PlainDriveWave(env, result, s, wave);
    DriveWaveFrame(env, s, wave);
    PlainExecute(env, result, s1, wave, id);
    PlainDrain(env, result, s2, wave, id);
    DrainWaveFrame(env, s2, wave);
  }

  /** The waves still to come: all Pending, with upstreams over or earlier. */
  predicate Waiting(graph: Graph, s: State, waves: seq<seq<JobId>>) {
    forall k, id | 0 <= k < |waves| && id in waves[k] ::
      s.PhaseOf(id).Pending?
      && forall u | u in graph.Predecessors(id) :: s.PhaseOf(u).Terminal() || u in Union(waves[..k])
  }

  lemma PlainNext(env: Env, result: JobId -> bool, s: State, waves: seq<seq<JobId>>)
    requires Plain(env, result) && waves != [] && AllDistinct(waves) && AllDisjoint(waves)
    requires Waiting(env.graph, s, waves)
    ensures Waiting(env.graph, RunWave(env, s, waves[0]), waves[1..])
    ensures forall id | id in waves[0] :: RunWave(env, s, waves[0]).PhaseOf(id) == FinalPhase(s, result, id)
  {
    hide RunWave;
    var wave, rest, s1 := waves[0], waves[1..], RunWave(env, s, waves[0]);
    UnionSplit(waves);
    RunWaveFrame(env, s, wave);
    assert Union(waves[..0]) == {};
    forall id | id in wave ensures s1.PhaseOf(id) == FinalPhase(s, result, id) {
      PlainWave(env, result, s, wave, id);
    }
    forall k, id | 0 <= k < |rest| && id in rest[k]
      ensures s1.PhaseOf(id).Pending?
      ensures forall u | u in env.graph.Predecessors(id) :: s1.PhaseOf(u).Terminal() || u in Union(rest[..k])
    {
      assert rest[k] == waves[k + 1] && id in Union(rest);
      var before := waves[..k + 1];
      assert before[0] == wave && before[1..] == rest[..k];
      UnionSplit(before);
    }
  }

  lemma {:induction false} PlainWaves(env: Env, result: JobId -> bool, s: State, waves: seq<seq<JobId>>, id: JobId)
    requires Plain(env, result) && AllDistinct(waves) && AllDisjoint(waves)
    requires Waiting(env.graph, s, waves) && id in Union(waves)
    ensures RunWaves(env, s, waves).PhaseOf(id) == FinalPhase(s, result, id)
    decreases |waves|
  {
    var s1 := RunWave(env, s, waves[0]);
    UnionSplit(waves);
    PlainNext(env, result, s, waves);
    RunWaveFrame(env, s, waves[0]);
    if id in waves[0] {
      RunWavesFrame(env, s1, waves[1..]);
    } else {
      PlainWaves(env, result, s1, waves[1..], id);
    }
  }

  /** In the plain setting, one tick from fresh over any layering of any acyclic
      graph leaves each node Succeeded or Deadlettered by its own result alone:
      dependencies order the executions but do not change their outcome. */
  lemma TickIsMap(env: Env, result: JobId -> bool, s0: State, waves: seq<seq<JobId>>, id: JobId)
    requires Plain(env, result) && Fresh(s0) && Stratified(env.graph, waves)
    requires id in env.graph.nodes
    ensures Tick(env, s0, waves).PhaseOf(id) == FinalPhase(s0, result, id)
  {
    var s1 := s0.(now := s0.now + 1);
    forall k, x, u | 0 <= k < |waves| && x in waves[k] && u in env.graph.Predecessors(x)
      ensures u in Union(waves[..k])
    {
      assert env.graph.Predecessors(x) <= Union(waves[..k]);
    }
    PlainWaves(env, result, s1, waves, id);
  }
}
