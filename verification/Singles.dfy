/** What one wave does to a single job that nothing holds back. */
module Singles {
  import opened Types
  import opened Retry
  import opened Gate
  import opened Budget
  import opened Driver
  import opened Dependencies
  import opened Frames

  /** No caps, and no gates of its own for the job. */
  predicate Unhindered(env: Env, id: JobId) {
    env.caps == Caps(None, map[], map[]) && env.GatesOf(id) == []
  }

  predicate Startable(env: Env, s: State, id: JobId) {
    Unhindered(env, id) && UpstreamsOver(env.graph, s, id) && (s.PhaseOf(id).Pending? || s.PhaseOf(id).Ready?)
  }

  lemma OneDriven(env: Env, s: State, id: JobId)
    ensures DriveWave(env, s, [id]) == Drive(env, Seed(s, id), id, FIRST_FUEL)
    ensures DrainWave(env, s, [id]) == Drive(env, s, id, DRAIN_FUEL)
  {
    hide Drive;
    assert [id][1..] == [];
  }

  lemma DriveToRunning(env: Env, s: State, id: JobId)
    requires Startable(env, s, id)
    ensures Drive(env, s, id, FIRST_FUEL).PhaseOf(id).Running?
  {
    if s.PhaseOf(id).Pending? {
      var verdict := UpstreamVerdict(env.graph.Predecessors(id), s.phases);
      AggregateMeaning([verdict]);
      assert [verdict] + KindOutcomes(env, s, id) == [verdict];
      var s1 := AdvanceOnce(env, s, id).0;
      assert s1.PhaseOf(id).Ready?;
      var s2 := AdvanceOnce(env, s1, id).0;
      assert Drive(env, s, id, FIRST_FUEL) == Drive(env, s1, id, FIRST_FUEL - 1) == Drive(env, s2, id, FIRST_FUEL - 2);
    } else {
      var s1 := AdvanceOnce(env, s, id).0;
      assert Drive(env, s, id, FIRST_FUEL) == Drive(env, s1, id, FIRST_FUEL - 1);
    }
  }

  /** Pass 2 over one Running job applies its result, unless it panicked. */
  lemma ExecuteOne(env: Env, s: State, id: JobId)
    requires s.PhaseOf(id).Running?
    ensures var started := s.(runs := s.runs + [id], now := s.now + 1);
            var outcome := ResultOf(env, started, s.now, id);
            Execute(env, s, [id]) == if outcome.Panicked? then started else ApplyResult(env, started, id, outcome.Completed?)
  {
    hide ApplyResult;
    assert [id][1..] == [];
    assert RunningIn(s, [id]) == [id];
    var arrivals := env.ArrivalOrder(s.now, [id]);
    assert multiset(arrivals) == multiset{id};
    assert |arrivals| == |multiset(arrivals)| == 1;
    assert arrivals[0] in multiset(arrivals);
    assert arrivals == [id] && arrivals[1..] == [];
    var started := s.(runs := s.runs + [id], now := s.now + 1);
    assert Execute(env, s, [id]) == ApplyAll(env, started, arrivals, s.now);
    ApplyOne(env, started, id, s.now);
  }

  lemma ApplyOne(env: Env, s: State, id: JobId, moment: nat)
    ensures var outcome := ResultOf(env, s, moment, id);
            ApplyAll(env, s, [id], moment) == if outcome.Panicked? then s else ApplyResult(env, s, id, outcome.Completed?)
  {
    hide ApplyResult;
    assert [id][1..] == [];
  }

  /** The state after the first two passes over one startable job. */
  lemma StartedAndExecuted(env: Env, s: State, id: JobId)
    requires Startable(env, s, id)
    ensures var s1 := DriveWave(env, s, [id]);
            var started := s1.(runs := s1.runs + [id], now := s1.now + 1);
            var outcome := ResultOf(env, started, s1.now, id);
            && s1.PhaseOf(id).Running? && s1.AttemptsOf(id) == s.AttemptsOf(id) && s1.jobs == s.jobs
            && Execute(env, s1, [id]) ==
               if outcome.Panicked? then started else ApplyResult(env, started, id, outcome.Completed?)
  {
    hide Drive, ApplyResult, Execute;
    var s1 := DriveWave(env, s, [id]);
    OneDriven(env, s, id);
    DriveToRunning(env, Seed(s, id), id);
    DriveWaveFrame(env, s, [id]);
    ExecuteOne(env, s1, id);
  }

  /** A job that always completes is Succeeded after its wave. */
  lemma CompletedWave(env: Env, s: State, id: JobId)
    requires Startable(env, s, id) && id in s.jobs
    requires forall moment :: env.outcome(moment, id).Completed?
    ensures RunWave(env, s, [id]).PhaseOf(id).Succeeded?
  {
    hide DriveWave, DrainWave, Execute;
    StartedAndExecuted(env, s, id);
    DrainWaveFrame(env, Execute(env, DriveWave(env, s, [id]), [id]), [id]);
  }

  /** A job that always fails is Failed after two passes, its failure counted and
      remembered as transient. */
  lemma FailedExecution(env: Env, s: State, id: JobId)
    requires Startable(env, s, id)
    requires forall moment :: env.outcome(moment, id).Errored?
    ensures var s2 := Execute(env, DriveWave(env, s, [id]), [id]);
            && s2.PhaseOf(id).Failed? && id in s2.attempts && s2.attempts[id] == s.AttemptsOf(id) + 1
            && s2.HistoryOf(id) != [] && s2.HistoryOf(id)[|s2.HistoryOf(id)| - 1].kind.Transient?
  {
    hide DriveWave, DrainWave, Execute;
    StartedAndExecuted(env, s, id);
  }

  /** A failed job whose policy is `Fixed(n, delayMs)`, drained: below n attempts it
      waits for its deadline, or comes back Ready when that is past; otherwise it is
      Deadlettered. */
  lemma DrainedFailure(env: Env, s: State, id: JobId, n: nat, delayMs: u64)
    requires Unhindered(env, id) && env.PolicyOf(id) == Fixed(n, delayMs)
    requires forall moment :: env.clock(moment) == 0
    requires s.PhaseOf(id).Failed? && id in s.attempts && UpstreamsOver(env.graph, s, id)
    requires s.HistoryOf(id) != [] && s.HistoryOf(id)[|s.HistoryOf(id)| - 1].kind.Transient?
    requires id !in env.graph.Predecessors(id) && delayMs <= I64_MAX
    ensures var phase := Drive(env, s, id, DRAIN_FUEL).PhaseOf(id);
            if s.attempts[id] >= n then phase.Deadlettered?
            else if delayMs == 0 then phase.Ready?
            else phase == Retrying(delayMs)
  {
    hide Drive, AdvanceOnce;
    var s1 := AdvanceOnce(env, s, id).0;
    DecidedFailure(env, s, id, n, delayMs);
    DriveStep(env, s, id, DRAIN_FUEL);
    if s.attempts[id] >= n {
      DriveFrame(env, s1, id, 2);
    } else {
      DrainedRetry(env, s1, id, delayMs);
    }
  }

  lemma DriveStep(env: Env, s: State, id: JobId, fuel: nat)
    requires fuel > 0 && !s.PhaseOf(id).Running? && AdvanceOnce(env, s, id).1
    ensures Drive(env, s, id, fuel) == Drive(env, AdvanceOnce(env, s, id).0, id, fuel - 1)
  {
  }

  lemma DecidedFailure(env: Env, s: State, id: JobId, n: nat, delayMs: u64)
    requires env.PolicyOf(id) == Fixed(n, delayMs) && env.clock(s.now) == 0 && delayMs <= I64_MAX
    requires s.PhaseOf(id).Failed? && id in s.attempts
    requires s.HistoryOf(id) != [] && s.HistoryOf(id)[|s.HistoryOf(id)| - 1].kind.Transient?
    ensures AdvanceOnce(env, s, id).1
    ensures AdvanceOnce(env, s, id).0.phases ==
            s.phases[id := if s.attempts[id] >= n then Deadlettered else Retrying(delayMs)]
  {
    assert Deadline(0, delayMs) == delayMs;
  }

  lemma DrainedRetry(env: Env, s: State, id: JobId, delayMs: nat)
    requires Unhindered(env, id) && (forall moment :: env.clock(moment) == 0)
    requires s.PhaseOf(id) == Retrying(delayMs) && UpstreamsOver(env.graph, s, id)
    requires id !in env.graph.Predecessors(id)
    ensures var phase := Drive(env, s, id, 2).PhaseOf(id);
            if delayMs == 0 then phase.Ready? else phase == Retrying(delayMs)
  {
    if delayMs == 0 {
      var s1 := AdvanceOnce(env, s, id).0;
      assert s1.PhaseOf(id).Pending?;
      var verdict := UpstreamVerdict(env.graph.Predecessors(id), s1.phases);
      AggregateMeaning([verdict]);
      assert [verdict] + KindOutcomes(env, s1, id) == [verdict];
      var s2 := AdvanceOnce(env, s1, id).0;
      assert Drive(env, s, id, 2) == Drive(env, s1, id, 1) == Drive(env, s2, id, 0) == s2;
    }
  }
}
