/** The retry budget: the attempt counter, the failure history and the log agree,
    and no policy lets a job fail more often than it allows. */
module Attempts {
  import opened Types
  import opened Retry
  import opened Driver
  import opened Machine
  import opened Interference
  import opened LogHistory

  predicate IsFailure(e: TransitionEvent, id: JobId) {
    e.id == id && e.to.Failed?
  }

  predicate IsReset(e: TransitionEvent, id: JobId) {
    e.id == id && e.from.Deadlettered?
  }

  /** Failed executions of a job that the log records. */
  function Failures(log: seq<TransitionEvent>, id: JobId): nat {
    if log == [] then 0
    else Failures(log[..|log| - 1], id) + if IsFailure(log[|log| - 1], id) then 1 else 0
  }

  /** Times an operator took a job back from Deadlettered. */
  function Resets(log: seq<TransitionEvent>, id: JobId): nat {
    if log == [] then 0
    else Resets(log[..|log| - 1], id) + if IsReset(log[|log| - 1], id) then 1 else 0
  }

  lemma CountsExtend(log: seq<TransitionEvent>, e: TransitionEvent, id: JobId)
    ensures Failures(log + [e], id) == Failures(log, id) + if IsFailure(e, id) then 1 else 0
    ensures Resets(log + [e], id) == Resets(log, id) + if IsReset(e, id) then 1 else 0
  {
    assert (log + [e])[..|log|] == log;
  }

  /** One more than the log knows, between counting a failure and logging it. */
  function Uncommitted(pc: Pc, id: JobId): nat {
    if pc.Settling? && pc.id == id && pc.signal.ExecutionFailed? then 1 else 0
  }

  /** The history is the last min(16, n) failures, numbered consecutively up to n. */
  predicate HistoryEndsAt(history: seq<FailureRecord>, n: nat) {
    && |history| == (if n < 16 then n else 16)
    && forall i | 0 <= i < |history| :: history[i].attempt == n - |history| + 1 + i
  }

  /** Until a job succeeds, its counter is the number of its failures; a success leaves
      neither counter nor history, once the thread has cleared them. */
  predicate CounterTrue(m: Mach, id: JobId) {
    if m.s.PhaseOf(id).Succeeded? then
      (m.pc.Clearing? && m.pc.id == id) || (m.s.AttemptsOf(id) == 0 && m.s.HistoryOf(id) == [])
    else
      && m.s.AttemptsOf(id) == Failures(m.s.log, id) + Uncommitted(m.pc, id)
      && HistoryEndsAt(m.s.HistoryOf(id), m.s.AttemptsOf(id))
      && (m.s.PhaseOf(id).Failed? ==> m.s.AttemptsOf(id) >= 1)
  }

  /** Failures stay below the allowance, plus one round per operator reset, except
      where the last failure has just used it up. */
  predicate WithinAllowance(env: Env, m: Mach, id: JobId)
    requires !env.PolicyOf(id).Custom?
  {
    var bound := env.PolicyOf(id).Allowance() + Resets(m.s.log, id);
    var phase := m.s.PhaseOf(id);
    && Failures(m.s.log, id) <= bound
    && (!phase.Terminal() && !phase.Failed? ==> Failures(m.s.log, id) < bound)
    && (m.pc.Armed? && m.pc.id == id && m.pc.signal.RetryDecide? && m.pc.signal.outcome.Retry? ==>
          Failures(m.s.log, id) < bound)
  }

  lemma TrimmedHistory(history: seq<FailureRecord>, n: nat, record: FailureRecord)
    requires HistoryEndsAt(history, n) && record.attempt == n + 1
    ensures HistoryEndsAt(Trim(history + [record]), n + 1)
  {
  }

  /** Only a failed delivery and a success change what is remembered of a job. */
  lemma MemoryStep(env: Env, m: Mach, step: Step, id: JobId)
    requires Next(env, m, step).Some?
    ensures var s, s' := m.s, Next(env, m, step).value.s;
            if step.Deliver? && !step.ok && step.id == id then
              s' == Book(env, s, id)
            else if step.Clear? && m.pc.id == id then
              s' == Forget(s, id)
            else
              s'.AttemptsOf(id) == s.AttemptsOf(id) && s'.HistoryOf(id) == s.HistoryOf(id)
  {
    hide Advance, GateVerdict, Trim, Launchable, Deadline;
  }

  /** A failure is logged where one was counted, and only there. */
  lemma UncommittedLogged(env: Env, m: Mach, step: Step, id: JobId)
    requires Remembers(m) && Next(env, m, step).Some? && (step.Fire? || step.Operate?)
    ensures var m' := Next(env, m, step).value;
            && |m'.s.log| == |m.s.log| + 1 && m'.s.log[..|m.s.log|] == m.s.log
            && var e := m'.s.log[|m.s.log|];
               && Uncommitted(m.pc, id) == Uncommitted(m'.pc, id) + (if IsFailure(e, id) then 1 else 0)
               && m'.s.PhaseOf(id) == (if e.id == id then e.to else m.s.PhaseOf(id))
               && (m.s.PhaseOf(id).Succeeded? ==> e.id != id)
               && (e.id == id && e.to.Succeeded? ==> m'.pc.Clearing? && m'.pc.id == id)
               && (m.pc.Clearing? ==> m'.pc == m.pc)
  {
    hide GateVerdict;
    StepEffect(env, m, step);
  }

  lemma CounterLogged(env: Env, m: Mach, step: Step, id: JobId)
    requires Remembers(m) && Next(env, m, step).Some? && (step.Fire? || step.Operate?)
    requires CounterTrue(m, id)
    ensures CounterTrue(Next(env, m, step).value, id)
  {
    UncommittedLogged(env, m, step, id);
    MemoryStep(env, m, step, id);
    var m' := Next(env, m, step).value;
    hide Next, Remembers, HistoryEndsAt, Failures;
    assert m'.s.log == m.s.log + [m'.s.log[|m.s.log|]];
    CountsExtend(m.s.log, m'.s.log[|m.s.log|], id);
  }

  lemma CounterBooked(env: Env, m: Mach, id: JobId, m': Mach)
    requires Remembers(m) && Next(env, m, Deliver(id, false)) == Some(m')
    requires CounterTrue(m, id)
    ensures CounterTrue(m', id)
  {
    var attempt := m.s.AttemptsOf(id) + 1;
    TrimmedHistory(m.s.HistoryOf(id), attempt - 1,
                   FailureAt(attempt, env.clock(m.s.now)));
  }

  lemma CounterKept(env: Env, m: Mach, step: Step, id: JobId)
    requires Remembers(m) && Next(env, m, step).Some?
    requires CounterTrue(m, id)
    ensures CounterTrue(Next(env, m, step).value, id)
  {
    var m' := Next(env, m, step).value;
    if step.Fire? || step.Operate? {
      CounterLogged(env, m, step, id);
    } else if step == Deliver(id, false) {
      CounterBooked(env, m, id, m');
    } else {
      StepEffect(env, m, step);
      MemoryStep(env, m, step, id);
      assert m'.s.PhaseOf(id) == m.s.PhaseOf(id);
      assert Uncommitted(m'.pc, id) == Uncommitted(m.pc, id);
    }
  }

  lemma AllowanceKept(env: Env, m: Mach, step: Step, id: JobId)
    requires Remembers(m) && Next(env, m, step).Some? && !env.PolicyOf(id).Custom?
    requires CounterTrue(m, id) && WithinAllowance(env, m, id)
    ensures WithinAllowance(env, Next(env, m, step).value, id)
  {
    var m' := Next(env, m, step).value;
    StepEffect(env, m, step);
    if step.Fire? || step.Operate? {
      AllowanceLogged(env, m, step, id);
    } else if step.Choose? && m.pc.id == id && m.pc.from.Failed? {
      RetryOnlyBelowAllowance(env.PolicyOf(id), m.s.AttemptsOf(id), m.s.HistoryOf(id));
    }
  }

  /** The last failure has been logged and what follows it has not happened. */
  predicate JustFailed(phase: JobPhase) {
    phase.Failed? || phase.Deadlettered?
  }

  /** Where an event can come from, as far as failures and resets are concerned. */
  lemma EventShape(env: Env, m: Mach, step: Step)
    requires Remembers(m) && Next(env, m, step).Some? && (step.Fire? || step.Operate?)
    ensures var m' := Next(env, m, step).value;
            && |m'.s.log| == |m.s.log| + 1 && m'.s.log[..|m.s.log|] == m.s.log
            && var e := m'.s.log[|m.s.log|];
               && e.from == m.s.PhaseOf(e.id) && m'.s.PhaseOf(e.id) == e.to
               && (forall id | id != e.id :: m'.s.PhaseOf(id) == m.s.PhaseOf(id))
               && (e.to.Deadlettered? ==> m.pc == Armed(e.id, RetryDecide(Deadletter)))
               && (e.to.Retrying? ==>
                     m.pc.Armed? && m.pc.id == e.id && m.pc.signal.RetryDecide? && m.pc.signal.outcome.Retry?)
               && (e.to.Failed? ==> e.from.Running?)
               && (e.from.Failed? ==> e.to.Deadlettered? || e.to.Retrying?)
               && (e.from.Terminal() ==> e.from.Deadlettered? && e.to.Pending?)
               && (m'.pc.Armed? ==> m'.pc == m.pc && (e.id != m.pc.id || !m.pc.signal.RetryDecide?))
  {
    hide GateVerdict;
    StepEffect(env, m, step);
  }

  lemma AllowanceLogged(env: Env, m: Mach, step: Step, id: JobId)
    requires Remembers(m) && Next(env, m, step).Some? && !env.PolicyOf(id).Custom?
    requires WithinAllowance(env, m, id) && (step.Fire? || step.Operate?)
    ensures WithinAllowance(env, Next(env, m, step).value, id)
  {
    EventShape(env, m, step);
    var m' := Next(env, m, step).value;
    assert m'.s.log == m.s.log + [m'.s.log[|m.s.log|]];
    hide Next, Remembers, Failures, Resets;
    CountsExtend(m.s.log, m'.s.log[|m.s.log|], id);
  }

  lemma {:induction false} RunCounter(env: Env, m: Mach, steps: seq<Step>, id: JobId)
    requires Remembers(m) && CounterTrue(m, id) && Run(env, m, steps).Some?
    ensures CounterTrue(Run(env, m, steps).value, id)
    ensures !env.PolicyOf(id).Custom? && WithinAllowance(env, m, id) ==>
              WithinAllowance(env, Run(env, m, steps).value, id)
    decreases |steps|
  {
    if steps != [] {
      RememberingStep(env, m, steps);
      CounterKept(env, m, steps[0], id);
      if !env.PolicyOf(id).Custom? && WithinAllowance(env, m, id) {
        AllowanceKept(env, m, steps[0], id);
      }
      RunCounter(env, Next(env, m, steps[0]).value, steps[1..], id);
    }
  }

  /** A job without a counter, as a restored one may be, is decided as after a first
      failure; one with a counter by that counter. */
  lemma DecidedByCounter(env: Env, s: State, id: JobId)
    requires !env.PolicyOf(id).Custom? && (forall record | record in s.HistoryOf(id) :: record.kind.Transient?)
    ensures var attempt := if id in s.attempts then s.attempts[id] else 1;
            attempt >= 1 ==> (DecideRetry(env, s, id).1.Retry? <==> attempt < env.PolicyOf(id).Allowance())
  {
    hide Deadline;
    RetryOnlyBelowAllowance(env.PolicyOf(id), if id in s.attempts then s.attempts[id] else 1, s.HistoryOf(id));
  }

  /** Over any interleaving from a fresh scheduler, for every policy: the counter is
      the number of failures logged, or zero after a success; the history is the last
      sixteen failures up to the counter, and so empty after a success. */
  lemma CounterIsLog(env: Env, s0: State, steps: seq<Step>, id: JobId)
    requires Fresh(s0) && Run(env, Mach(s0, Idle), steps).Some?
    ensures var m := Run(env, Mach(s0, Idle), steps).value;
            m.pc.Idle? ==>
              && m.s.AttemptsOf(id) == (if m.s.PhaseOf(id).Succeeded? then 0 else Failures(m.s.log, id))
              && HistoryEndsAt(m.s.HistoryOf(id), m.s.AttemptsOf(id))
  {
    RunCounter(env, Mach(s0, Idle), steps, id);
  }

  /** A job fails at most as often as its policy allows, plus once per operator
      reset: a reset does not clear the counter, so it buys one execution. */
  lemma RetryBudget(env: Env, s0: State, steps: seq<Step>, id: JobId)
    requires Fresh(s0) && Run(env, Mach(s0, Idle), steps).Some?
    requires !env.PolicyOf(id).Custom?
    ensures var s := Run(env, Mach(s0, Idle), steps).value.s;
            Failures(s.log, id) <= env.PolicyOf(id).Allowance() + Resets(s.log, id)
  {
    RunCounter(env, Mach(s0, Idle), steps, id);
  }
}
