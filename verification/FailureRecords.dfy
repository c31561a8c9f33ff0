/** What the failure history says is what happened: each record is one failure of the
    log, by number and by time. */
module FailureRecords {
  import opened Types
  import opened Retry
  import opened Driver
  import opened Machine
  import opened Interference
  import opened LogHistory
  import opened Attempts
  import opened BackoffRuns

  /** The record of the failure logged at `k`: its number, its text, and a stamp between
      the job's previous event and that failure. */
  predicate RecordOf(log: seq<TransitionEvent>, id: JobId, record: FailureRecord, k: nat) {
    && k < |log| && IsFailure(log[k], id)
    && record.attempt == Failures(log[..k], id) + 1
    && record.error == FAILURE_TEXT && record.kind.Transient?
    && record.atMs <= log[k].at
    && forall i | 0 <= i < k && log[i].id == id :: log[i].at <= record.atMs
  }

  ghost predicate Recalled(log: seq<TransitionEvent>, id: JobId, record: FailureRecord) {
    exists k: nat :: RecordOf(log, id, record, k)
  }

  /** The record of a failure that is counted and not yet logged. */
  ghost predicate Fresher(env: Env, m: Mach, id: JobId, record: FailureRecord) {
    && Uncommitted(m.pc, id) == 1 && record.attempt == m.s.AttemptsOf(id)
    && record.error == FAILURE_TEXT && record.kind.Transient?
    && record.atMs <= env.clock(m.s.now)
    && forall i | 0 <= i < |m.s.log| && m.s.log[i].id == id :: m.s.log[i].at <= record.atMs
  }

  ghost predicate RecordsTrue(env: Env, m: Mach, id: JobId) {
    forall record | record in m.s.HistoryOf(id) :: Recalled(m.s.log, id, record) || Fresher(env, m, id, record)
  }

  lemma RecalledLater(log: seq<TransitionEvent>, e: TransitionEvent, id: JobId, record: FailureRecord)
    requires Recalled(log, id, record)
    ensures Recalled(log + [e], id, record)
  {
    var k: nat :| RecordOf(log, id, record, k);
    assert (log + [e])[..k] == log[..k];
    assert RecordOf(log + [e], id, record, k);
  }

  /** The failure is logged, and its record becomes a memory of it. */
  lemma FresherLogged(env: Env, m: Mach, step: Step, id: JobId, record: FailureRecord)
    requires Monotone(env.clock) && Remembers(m) && Next(env, m, step).Some? && (step.Fire? || step.Operate?)
    requires CounterTrue(m, id) && Fresher(env, m, id, record)
    ensures var m' := Next(env, m, step).value;
            Recalled(m'.s.log, id, record) || Fresher(env, m', id, record)
  {
    var m' := Next(env, m, step).value;
    var log := m.s.log;
    StepEffect(env, m, step);
    var e := m'.s.log[|log|];
    assert m'.s.log == log + [e];
    assert env.clock(m.s.now) <= env.clock(m'.s.now);
    assert m.s.PhaseOf(id).Running?;
    if step.Fire? {
      assert e.id == id && e.to.Failed?;
      assert m'.s.log[..|log|] == log;
      assert RecordOf(m'.s.log, id, record, |log|);
    } else {
      assert e.id != id;
      assert forall i | 0 <= i < |log| :: m'.s.log[i] == log[i];
    }
  }

  lemma RecordsLogged(env: Env, m: Mach, step: Step, id: JobId)
    requires Monotone(env.clock) && Remembers(m) && Next(env, m, step).Some? && (step.Fire? || step.Operate?)
    requires CounterTrue(m, id) && RecordsTrue(env, m, id)
    ensures RecordsTrue(env, Next(env, m, step).value, id)
  {
    hide Fresher, Recalled, CounterTrue;
    var m' := Next(env, m, step).value;
    StepEffect(env, m, step);
    MemoryStep(env, m, step, id);
    assert m'.s.log == m.s.log + [m'.s.log[|m.s.log|]];
    forall record | record in m'.s.HistoryOf(id)
      ensures Recalled(m'.s.log, id, record) || Fresher(env, m', id, record)
    {
      if Recalled(m.s.log, id, record) {
        RecalledLater(m.s.log, m'.s.log[|m.s.log|], id, record);
      } else {
        FresherLogged(env, m, step, id, record);
      }
    }
  }

  lemma RecordsBooked(env: Env, m: Mach, id: JobId)
    requires Monotone(env.clock) && Remembers(m) && Next(env, m, Deliver(id, false)).Some?
    requires Stamped(env, m.s) && RecordsTrue(env, m, id)
    ensures RecordsTrue(env, Next(env, m, Deliver(id, false)).value, id)
  {
    var m' := Next(env, m, Deliver(id, false)).value;
    assert env.clock(m.s.now) <= env.clock(m'.s.now);
    var attempt := m.s.AttemptsOf(id) + 1;
    var record := FailureAt(attempt, env.clock(m.s.now));
    assert m'.s.HistoryOf(id) == Trim(m.s.HistoryOf(id) + [record]);
    assert Fresher(env, m', id, record);
    forall r | r in m'.s.HistoryOf(id) ensures Recalled(m'.s.log, id, r) || Fresher(env, m', id, r) {
      if r != record {
        assert r in m.s.HistoryOf(id);
        assert Uncommitted(m.pc, id) == 0;
      }
    }
  }

  lemma RecordsSilent(env: Env, m: Mach, step: Step, id: JobId)
    requires Monotone(env.clock) && Remembers(m) && Next(env, m, step).Some?
    requires !step.Fire? && !step.Operate? && step != Deliver(id, false)
    requires RecordsTrue(env, m, id)
    ensures RecordsTrue(env, Next(env, m, step).value, id)
  {
    hide Recalled;
    var m' := Next(env, m, step).value;
    StepEffect(env, m, step);
    MemoryStep(env, m, step, id);
    TimePasses(env, m, step);
    assert env.clock(m.s.now) <= env.clock(m'.s.now);
    assert Uncommitted(m.pc, id) == 1 ==> m'.pc == m.pc && m'.s.AttemptsOf(id) == m.s.AttemptsOf(id);
    forall record | record in m'.s.HistoryOf(id)
      ensures Recalled(m'.s.log, id, record) || Fresher(env, m', id, record)
    {
      assert record in m.s.HistoryOf(id);
    }
  }

  lemma {:induction false} RunRecords(env: Env, m: Mach, steps: seq<Step>, id: JobId)
    requires Monotone(env.clock) && Remembers(m) && Run(env, m, steps).Some?
    requires CounterTrue(m, id) && Stamped(env, m.s) && RecordsTrue(env, m, id)
    ensures RecordsTrue(env, Run(env, m, steps).value, id)
    decreases |steps|
  {
    hide CounterTrue, Stamped, RecordsTrue, Next, Remembers;
    if steps != [] {
      RememberingStep(env, m, steps);
      CounterKept(env, m, steps[0], id);
      StampedKept(env, m, steps[0]);
      if steps[0].Fire? || steps[0].Operate? {
        RecordsLogged(env, m, steps[0], id);
      } else if steps[0] == Deliver(id, false) {
        RecordsBooked(env, m, id);
      } else {
        RecordsSilent(env, m, steps[0], id);
      }
      RunRecords(env, Next(env, m, steps[0]).value, steps[1..], id);
    }
  }

  /** Over any interleaving from a fresh scheduler with a clock that never goes back,
      every record of a job's history belongs to the logged failure of its number, and
      was stamped between the job's previous event and that failure. */
  lemma HistoryIsLog(env: Env, s0: State, steps: seq<Step>, id: JobId)
    requires Monotone(env.clock) && Fresh(s0) && Run(env, Mach(s0, Idle), steps).Some?
    ensures var m := Run(env, Mach(s0, Idle), steps).value;
            m.pc.Idle? ==> forall record | record in m.s.HistoryOf(id) :: Recalled(m.s.log, id, record)
  {
    RunRecords(env, Mach(s0, Idle), steps, id);
  }
}
