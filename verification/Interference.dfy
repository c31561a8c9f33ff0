/** Rely and guarantee: whatever an operator or a registering consumer does between
    two steps of a tick, the tick never dispatches an illegal signal. */
module Interference {
  import opened Types
  import opened Driver
  import opened Machine

  predicate AllRunning(s: State, ids: set<JobId>) {
    forall id | id in ids :: s.PhaseOf(id).Running?
  }

  /** The driver's own signal for a job in this phase, leading somewhere else. */
  predicate Fits(phase: JobPhase, signal: Signal) {
    match signal
    case EvaluateGates(aggregate) => (phase.Pending? || phase.Gated?) && AfterGates(aggregate) != phase
    case AllocateBudget => phase.Ready?
    case BackoffElapsed => phase.Retrying?
    case RetryDecide(_) => phase.Failed?
    case _ => false
  }

  /** What the tick thread remembers is still true. A job it saw may since have
      been moved only if it was an operator's to move. */
  predicate Remembers(m: Mach) {
    match m.pc
    case Idle => true
    case Saw(id, from) => m.s.PhaseOf(id) == from || from.OperatorOnly()
    case Armed(id, signal) => Fits(m.s.PhaseOf(id), signal)
    case Batch(todo) => AllRunning(m.s, todo)
    case Settling(id, signal, todo) =>
      && (signal.ExecutionSucceeded? || signal.ExecutionFailed?)
      && id !in todo && AllRunning(m.s, todo + {id})
    case Clearing(id, todo) => m.s.PhaseOf(id).Succeeded? && AllRunning(m.s, todo)
    case Releasing(id, todo) =>
      (m.s.PhaseOf(id).Succeeded? || m.s.PhaseOf(id).Failed?) && AllRunning(m.s, todo)
    case Aborted(_) => false
  }

  /** The rely condition: an outside step moves only jobs that wait for an operator. */
  lemma OutsideMoves(env: Env, m: Mach, step: Step, id: JobId)
    requires step.FromOutside() && Next(env, m, step).Some?
    ensures var m' := Next(env, m, step).value;
            && m'.pc == m.pc
            && (m'.s.PhaseOf(id) == m.s.PhaseOf(id) || m.s.PhaseOf(id).OperatorOnly())
            && (!step.FromOperator() ==> m'.s.PhaseOf(id) == m.s.PhaseOf(id))
  {
  }

  /** No event, and every job in the phase it was in. */
  ghost predicate Silent(s: State, s': State) {
    s'.log == s.log && forall id :: s'.PhaseOf(id) == s.PhaseOf(id)
  }

  /** One job moved along the transition table, and the log says which. */
  ghost predicate Logged(env: Env, s: State, s': State) {
    && |s'.log| == |s.log| + 1 && s'.log[..|s.log|] == s.log
    && var e := s'.log[|s.log|];
       && s' == s.(phases := s.phases[e.id := e.to], log := s.log + [e], now := s.now + 1)
       && e.at == env.clock(s.now)
       && e.from == s.PhaseOf(e.id) && e.from != e.to
       && LegalMove(e.from, e.to) && !e.to.WaitingForOperator?
  }

  lemma EmitLogged(env: Env, s: State, id: JobId, signal: Signal, reason: TransitionReason)
    requires Advance(s.PhaseOf(id), signal).Ok? && Advance(s.PhaseOf(id), signal).value != s.PhaseOf(id)
    ensures Logged(env, s, Emit(env, s, id, Advance(s.PhaseOf(id), signal).value, reason))
  {
  }

  /** The signals a tick dispatches. */
  predicate DriverSignal(signal: Signal) {
    !signal.Cancel? && !signal.Timeout? && !signal.OperatorTransition?
  }

  lemma DispatchReason(env: Env, s: State, id: JobId, signal: Signal)
    requires DriverSignal(signal) && Advance(s.PhaseOf(id), signal).Ok?
    ensures var s' := Dispatch(env, s, id, signal);
            |s'.log| == |s.log| + 1 && ReasonFits(s'.log[|s.log|])
  {
    var e := Dispatch(env, s, id, signal).log[|s.log|];
    assert |"retries exhausted"| != |"execute() returned Err"|;
    CellTargets(s.PhaseOf(id), signal, e.to);
    EntryCells(s.PhaseOf(id), signal, e.to);
  }

  lemma FireEffect(env: Env, m: Mach, step: Step)
    requires Remembers(m) && Next(env, m, step).Some? && step.Fire?
    ensures var s' := Next(env, m, step).value.s;
            && Logged(env, m.s, s') && s' == Dispatch(env, m.s, m.pc.id, m.pc.signal)
            && s'.log[|m.s.log|].id == m.pc.id && s'.log[|m.s.log|].from == m.s.PhaseOf(m.pc.id)
            && !m.s.PhaseOf(m.pc.id).OperatorOnly() && ReasonFits(s'.log[|m.s.log|])
  {
    hide Logged, ReasonFits;
    DispatchReason(env, m.s, m.pc.id, m.pc.signal);
    assert Advance(m.s.PhaseOf(m.pc.id), m.pc.signal).Ok?;
    EmitLogged(env, m.s, m.pc.id, m.pc.signal, ReasonFrom(m.pc.signal));
  }

  lemma SilentEffect(env: Env, m: Mach, step: Step)
    requires Next(env, m, step).Some? && !step.Fire? && !step.Operate?
    ensures Silent(m.s, Next(env, m, step).value.s)
  {
    hide Advance, GateVerdict, Trim, Launchable;
  }

  /** Phases and log always move together. */
  lemma StepEffect(env: Env, m: Mach, step: Step)
    requires Remembers(m) && Next(env, m, step).Some?
    ensures var m' := Next(env, m, step).value;
            if step.Fire? || step.Operate? then Logged(env, m.s, m'.s) else Silent(m.s, m'.s)
    ensures step.Fire? ==>
              m.s.PhaseOf(m.pc.id) == Next(env, m, step).value.s.log[|m.s.log|].from
              && !m.s.PhaseOf(m.pc.id).OperatorOnly()
              && Next(env, m, step).value.s.log[|m.s.log|].id == m.pc.id
              && Next(env, m, step).value.s == Dispatch(env, m.s, m.pc.id, m.pc.signal)
              && ReasonFits(Next(env, m, step).value.s.log[|m.s.log|])
    ensures step.Operate? ==>
              m.s.PhaseOf(step.id).OperatorOnly()
              && Next(env, m, step).value.s.log[|m.s.log|] ==
                 TransitionEvent(env.clock(m.s.now), step.id, m.s.PhaseOf(step.id), step.target, step.reason)
  {
    hide Logged, Silent, Dispatch, Act, ReasonFits;
    if step.Fire? {
      FireEffect(env, m, step);
    } else if step.Operate? {
      EmitLogged(env, m.s, step.id, OperatorTransition(step.target), step.reason);
      OperatorCells(m.s.PhaseOf(step.id), step.target);
    } else {
      SilentEffect(env, m, step);
    }
  }

  /** What single steps leave alone. */
  lemma TimePasses(env: Env, m: Mach, step: Step)
    requires Next(env, m, step).Some?
    ensures var s' := Next(env, m, step).value.s;
            && m.s.now <= s'.now
            && (!step.RegisterJob? ==> s'.jobs == m.s.jobs)
            && (!step.Launch? ==> s'.runs == m.s.runs)
  {
    hide Advance, GateVerdict, Trim, Launchable;
  }

  lemma OutsideKept(env: Env, m: Mach, step: Step)
    requires Remembers(m) && Next(env, m, step).Some? && step.FromOutside()
    ensures Remembers(Next(env, m, step).value)
  {
    var m' := Next(env, m, step).value;
    forall id ensures m'.s.PhaseOf(id) == m.s.PhaseOf(id) || m.s.PhaseOf(id).OperatorOnly() {
      OutsideMoves(env, m, step, id);
    }
    assert m'.pc == m.pc by {
      OutsideMoves(env, m, step, step.id);
    }
    hide Next;
  }

  lemma ThreadKept(env: Env, m: Mach, step: Step)
    requires Remembers(m) && Next(env, m, step).Some? && !step.FromOutside()
    ensures Remembers(Next(env, m, step).value)
  {
    hide GateVerdict, Trim;
    if step.Choose? {
      ActLegal(env, m.s, m.pc.id);
    }
  }

  lemma RemembersKept(env: Env, m: Mach, step: Step)
    requires Remembers(m) && Next(env, m, step).Some?
    ensures Remembers(Next(env, m, step).value)
  {
    hide Remembers, Next;
    if step.FromOutside() {
      OutsideKept(env, m, step);
    } else {
      ThreadKept(env, m, step);
    }
  }

  lemma {:induction false} RunRemembers(env: Env, m: Mach, steps: seq<Step>)
    requires Remembers(m) && Run(env, m, steps).Some?
    ensures Remembers(Run(env, m, steps).value)
    decreases |steps|
  {
    if steps != [] {
      RemembersKept(env, m, steps[0]);
      RunRemembers(env, Next(env, m, steps[0]).value, steps[1..]);
    }
  }

  /** No interleaving of operator moves and registrations with a tick makes the
      tick abort on an illegal transition. */
  lemma NeverAborts(env: Env, s: State, steps: seq<Step>)
    requires Run(env, Mach(s, Idle), steps).Some?
    ensures !Run(env, Mach(s, Idle), steps).value.pc.Aborted?
  {
    RunRemembers(env, Mach(s, Idle), steps);
  }
}
