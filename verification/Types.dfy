/** The vocabulary every other module shares: job identities, the phase machine
    and its transition table. */
module Types {
  datatype Option<+T> = None | Some(value: T)

  datatype Result<+T, +E> = Ok(value: T) | Err(error: E)

  datatype JobScope =
    | Global
    | Workspace(name: string)
    | Repo(workspace: string, repo: string)

  datatype JobKindId = JobKindId(name: string)

  datatype JobSubject =
    | NoSubject
    | RepoSubject(repo: string)
    | OrgSubject(org: string)
    | PathSubject(path: string)
    | PinnedSubject(pin: string)

  datatype JobId = JobId(scope: JobScope, kind: JobKindId, subject: JobSubject)

  datatype SkipReason =
    | GateRejected
    | BlockedByDeadletteredAncestor
    | OperatorDecision
    | Other(text: string)

  datatype JobPhase =
    | Pending
    | Gated
    | Ready
    | Running
    | Succeeded
    | Failed(attempts: nat)
    | Retrying(untilMs: int)
    | Skipped(reason: SkipReason)
    | Deadlettered
    | WaitingForOperator
  {
    /** A phase the driver never leaves on its own and that releases dependants. */
    predicate Terminal() {
      Succeeded? || Skipped? || Deadlettered?
    }

    /** A phase only an operator command can leave. */
    predicate OperatorOnly() {
      Deadlettered? || WaitingForOperator?
    }
  }

  type Phases = map<JobId, JobPhase>

  /** A job the map does not mention counts as Pending. */
  function PhaseIn(phases: Phases, id: JobId): JobPhase {
    if id in phases then phases[id] else Pending
  }

  datatype GateAggregate =
    | AllPassed(gates: nat)
    | Vacuous
    | SomeWaiting
    | SkippedBy(reason: SkipReason)

  datatype RetryOutcome = Retry(untilMs: int) | Deadletter

  datatype Signal =
    | EvaluateGates(aggregate: GateAggregate)
    | AllocateBudget
    | ExecutionSucceeded
    | ExecutionFailed
    | RetryDecide(outcome: RetryOutcome)
    | Cancel
    | Timeout
    | BackoffElapsed
    | OperatorTransition(target: JobPhase)

  datatype IllegalTransition = IllegalTransition(from: JobPhase, signal: Signal)

  /** The transition table: the next phase, or the rejected cell. */
  function Advance(from: JobPhase, signal: Signal): Result<JobPhase, IllegalTransition> {
    match (from, signal)
    case (Pending, EvaluateGates(aggregate)) => Ok(AfterGates(aggregate))
    case (Gated, EvaluateGates(aggregate)) => Ok(AfterGates(aggregate))
    case (Ready, AllocateBudget) => Ok(Running)
    case (Ready, EvaluateGates(aggregate)) => Ok(AfterGates(aggregate))
    case (Running, ExecutionSucceeded) => Ok(Succeeded)
    case (Running, ExecutionFailed) => Ok(Failed(1))
    case (Running, Cancel) => Ok(Failed(1))
    case (Running, Timeout) => Ok(Failed(1))
    case (Failed(_), RetryDecide(Retry(untilMs))) => Ok(Retrying(untilMs))
    case (Failed(_), RetryDecide(Deadletter)) => Ok(Deadlettered)
    case (Retrying(_), BackoffElapsed) => Ok(Pending)
    case (Retrying(_), EvaluateGates(aggregate)) => Ok(AfterGates(aggregate))
    case (WaitingForOperator, OperatorTransition(Ready)) => Ok(Ready)
    case (WaitingForOperator, OperatorTransition(Skipped(reason))) => Ok(Skipped(reason))
    case (Deadlettered, OperatorTransition(Pending)) => Ok(Pending)
    case _ => Err(IllegalTransition(from, signal))
  }

  function AfterGates(aggregate: GateAggregate): JobPhase {
    match aggregate
    case AllPassed(_) => Ready
    case Vacuous => Ready
    case SomeWaiting => Gated
    case SkippedBy(reason) => Skipped(reason)
  }

  /** Which cells lead where: the only way into each phase the rest relies on, and
      the only way out of a terminal one. */
  lemma EntryCells(from: JobPhase, signal: Signal, to: JobPhase)
    requires Advance(from, signal) == Ok(to)
    ensures to.Running? <==> from.Ready? && signal.AllocateBudget?
    ensures to.Succeeded? <==> from.Running? && signal.ExecutionSucceeded?
    ensures to.Failed? <==> from.Running? && !signal.ExecutionSucceeded?
    ensures to.Retrying? <==> from.Failed? && signal.outcome.Retry?
    ensures to.Deadlettered? <==> from.Failed? && signal.outcome.Deadletter?
    ensures to.Pending? <==> (from.Retrying? && signal.BackoffElapsed?) || from.Deadlettered?
    ensures from.OperatorOnly() <==> signal.OperatorTransition?
    ensures from.Terminal() ==> from.Deadlettered? && signal == OperatorTransition(Pending)
    ensures !to.WaitingForOperator?
  {
  }

  /** The table from the outside: which cells are legal, and that every other one is
      rejected with the phase and the signal it was rejected for. */
  lemma LegalCells(from: JobPhase, signal: Signal)
    ensures Advance(from, signal).Ok? <==>
              || (signal.EvaluateGates? && (from.Pending? || from.Gated? || from.Ready? || from.Retrying?))
              || (signal.AllocateBudget? && from.Ready?)
              || ((signal.ExecutionSucceeded? || signal.ExecutionFailed? || signal.Cancel? || signal.Timeout?)
                  && from.Running?)
              || (signal.RetryDecide? && from.Failed?)
              || (signal.BackoffElapsed? && from.Retrying?)
              || (signal.OperatorTransition? && from.WaitingForOperator? && (signal.target.Ready? || signal.target.Skipped?))
              || (signal.OperatorTransition? && from.Deadlettered? && signal.target.Pending?)
    ensures Advance(from, signal).Err? ==> Advance(from, signal).error == IllegalTransition(from, signal)
  {
  }

  /** Where gates lead from any phase that may be evaluated, with the reason of a skip;
      what a failure and a retry carry. */
  lemma CellTargets(from: JobPhase, signal: Signal, to: JobPhase)
    requires Advance(from, signal) == Ok(to)
    ensures signal.EvaluateGates? ==>
              && (to.Ready? <==> signal.aggregate.AllPassed? || signal.aggregate.Vacuous?)
              && (to.Gated? <==> signal.aggregate.SomeWaiting?)
              && (signal.aggregate.SkippedBy? <==> to.Skipped?)
              && (to.Skipped? ==> to.reason == signal.aggregate.reason)
    ensures to.Failed? ==> to.attempts == 1
    ensures to.Retrying? ==> signal.RetryDecide? && to.untilMs == signal.outcome.untilMs
  {
  }

  /** The operator has three commands, and each puts the job where it says. */
  lemma OperatorCells(from: JobPhase, target: JobPhase)
    ensures Advance(from, OperatorTransition(target)).Ok? <==>
              || (from.WaitingForOperator? && (target.Ready? || target.Skipped?))
              || (from.Deadlettered? && target.Pending?)
    ensures Advance(from, OperatorTransition(target)).Ok? ==> Advance(from, OperatorTransition(target)).value == target
  {
  }

  /** A cohort that claimed nothing drives the same transitions as one that passed. */
  lemma VacuousMovesLikeAllPassed(from: JobPhase, gates: nat)
    ensures var vacuous, passed := Advance(from, EvaluateGates(Vacuous)), Advance(from, EvaluateGates(AllPassed(gates)));
            (vacuous.Ok? <==> passed.Ok?) && (vacuous.Ok? ==> vacuous.value == passed.value)
  {
  }

  datatype TransitionReason =
    | GateEvaluation
    | BudgetAllocated
    | ExecutionOk
    | ExecutionError(text: string)
    | RetryScheduled
    | BackoffOver
    | TimedOut
    | Cancelled
    | OperatorAction(text: string)

  /** What the scheduler records of any failed execution. */
  const FAILURE_TEXT := "execute() returned Err"

  function ReasonFrom(signal: Signal): TransitionReason {
    match signal
    case EvaluateGates(_) => GateEvaluation
    case AllocateBudget => BudgetAllocated
    case ExecutionSucceeded => ExecutionOk
    case ExecutionFailed => ExecutionError(FAILURE_TEXT)
    case RetryDecide(Retry(_)) => RetryScheduled
    case RetryDecide(Deadletter) => ExecutionError("retries exhausted")
    case Cancel => Cancelled
    case Timeout => TimedOut
    case BackoffElapsed => BackoffOver
    case OperatorTransition(_) => OperatorAction("manual transition")
  }

  /** What an audit reader may conclude from a reason about a legal move. */
  lemma ReasonTells(from: JobPhase, signal: Signal, to: JobPhase)
    requires Advance(from, signal) == Ok(to)
    ensures var reason := ReasonFrom(signal);
            && (reason.BudgetAllocated? <==> to.Running?)
            && (reason.ExecutionOk? <==> to.Succeeded?)
            && (reason.RetryScheduled? <==> to.Retrying?)
            && (reason == ExecutionError("retries exhausted") <==> to.Deadlettered?)
            && (reason.BackoffOver? <==> from.Retrying? && to.Pending?)
            && (reason.OperatorAction? <==> from.OperatorOnly())
            && (reason.Cancelled? <==> signal.Cancel?) && (reason.TimedOut? <==> signal.Timeout?)
            && (reason.OperatorAction? ==> reason.text == "manual transition")
            && (reason == ExecutionError("execute() returned Err") <==> signal.ExecutionFailed?)
            && (reason.ExecutionError? || reason.TimedOut? || reason.Cancelled? <==> to.Failed? || to.Deadlettered?)
  {
    assert |"retries exhausted"| != |FAILURE_TEXT|;
  }

  datatype TransitionEvent = TransitionEvent(
    at: int, id: JobId, from: JobPhase, to: JobPhase, reason: TransitionReason)

  /** An event of the driver carries the reason its move demands. */
  predicate ReasonFits(e: TransitionEvent) {
    && (e.to.Running? <==> e.reason.BudgetAllocated?)
    && (e.to.Succeeded? <==> e.reason.ExecutionOk?)
    && (e.to.Failed? <==> e.reason == ExecutionError("execute() returned Err"))
    && (e.to.Retrying? <==> e.reason.RetryScheduled?)
    && (e.to.Deadlettered? <==> e.reason == ExecutionError("retries exhausted"))
    && (e.to.Pending? <==> e.reason.BackoffOver?)
    && (e.to.Ready? || e.to.Gated? || e.to.Skipped? <==> e.reason.GateEvaluation?)
  }

  /** Some signal makes `to` the successor of `from`. */
  ghost predicate LegalMove(from: JobPhase, to: JobPhase) {
    exists signal :: Advance(from, signal) == Ok(to)
  }

  predicate Distinct<T(==)>(xs: seq<T>) {
    forall i, j | 0 <= i < j < |xs| :: xs[i] != xs[j]
  }

  function Members<T>(xs: seq<T>): set<T> {
    set x | x in xs
  }

  /** Distinctness is a property of the multiset, so every reordering keeps it. */
  lemma DistinctReordered<T>(xs: seq<T>, ys: seq<T>)
    requires multiset(xs) == multiset(ys)
    requires Distinct(xs)
    ensures Distinct(ys)
    ensures Members(ys) == Members(xs)
  {
    assert forall x :: x in xs <==> x in multiset(xs);
    assert forall y :: y in ys <==> y in multiset(ys);
    DistinctCounts(xs);
    forall i, j | 0 <= i < j < |ys|
      ensures ys[i] != ys[j]
    {
      PairCounts(ys, i, j);
    }
  }

  lemma PairCounts<T>(ys: seq<T>, i: nat, j: nat)
    requires i < j < |ys|
    ensures ys[i] == ys[j] ==> multiset(ys)[ys[i]] >= 2
  {
    assert ys == ys[..j] + [ys[j]] + ys[j + 1..];
    assert ys[i] in ys[..j];
  }

  lemma {:induction false} DistinctCounts<T>(xs: seq<T>)
    requires Distinct(xs)
    ensures forall x | x in xs :: multiset(xs)[x] == 1
  {
    if xs != [] {
      DistinctCounts(xs[1..]);
      assert xs == [xs[0]] + xs[1..];
      assert xs[0] !in xs[1..];
      assert xs[0] !in multiset(xs[1..]);
    }
  }

  lemma {:induction false} SubsetSize<T>(a: set<T>, b: set<T>)
    requires a <= b
    ensures |a| <= |b|
  {
    if a != {} {
      var x :| x in a;
      SubsetSize(a - {x}, b - {x});
    }
  }
}
