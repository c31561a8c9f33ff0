/** The scheduler's driver as functions on its whole state. One tick walks waves;
    each wave drives its jobs, executes what runs, and drains what failed.

    What the code reads from outside (clock, kind gates, execution results and the
    order they arrive in) is an oracle in `Env`. The n-th reading of any oracle is
    indexed by `State.now`, which counts readings, so answers may vary freely from
    one reading to the next. */
module Driver {
  import opened Types
  import opened Retry
  import opened Gate
  import opened Budget

  datatype Graph = Graph(nodes: set<JobId>, edges: set<(JobId, JobId)>)
  {
    function Predecessors(id: JobId): set<JobId> {
      set e | e in edges && e.1 == id :: e.0
    }
  }

  datatype Outcome = Completed | Errored | Panicked

  type KindGate = (JobId, Phases, nat) -> GateOutcome

  datatype Env = Env(
    graph: Graph,
    gates: map<JobKindId, seq<KindGate>>,
    policies: map<JobKindId, RetryPolicy>,
    caps: Caps,
    clock: nat -> int,
    outcome: (nat, JobId) -> Outcome,
    order: (nat, seq<JobId>) -> seq<JobId>)
  {
    function PolicyOf(id: JobId): RetryPolicy {
      if id.kind in policies then policies[id.kind] else NoRetry
    }

    function GatesOf(id: JobId): seq<KindGate> {
      if id.kind in gates then gates[id.kind] else []
    }

    /** The order in which the results of `ids` arrive; an answer that is no
        reordering of `ids` stands for `ids` itself. */
    function ArrivalOrder(moment: nat, ids: seq<JobId>): (arrivals: seq<JobId>)
      ensures multiset(arrivals) == multiset(ids)
      ensures multiset(order(moment, ids)) == multiset(ids) ==> arrivals == order(moment, ids)
    {
      if multiset(order(moment, ids)) == multiset(ids) then order(moment, ids) else ids
    }
  }

  /** `log` is the stream of emitted events and `runs` the list of executions
      started, both oldest first. */
  datatype State = State(
    phases: Phases,
    attempts: map<JobId, nat>,
    history: map<JobId, seq<FailureRecord>>,
    jobs: set<JobId>,
    slots: Slots,
    log: seq<TransitionEvent>,
    runs: seq<JobId>,
    now: nat)
  {
    function PhaseOf(id: JobId): JobPhase {
      PhaseIn(phases, id)
    }

    function AttemptsOf(id: JobId): nat {
      if id in attempts then attempts[id] else 0
    }

    function HistoryOf(id: JobId): seq<FailureRecord> {
      if id in history then history[id] else []
    }
  }

  const HISTORY_LIMIT: nat := 16

  // ----- The small moves, each under one lock -----

  /** Seed an absent job as Pending; a known one keeps its phase. */
  function Seed(s: State, id: JobId): State {
    if id in s.phases then s else s.(phases := s.phases[id := Pending])
  }

  function Register(s: State, id: JobId): State {
    Seed(s, id).(jobs := s.jobs + {id})
  }

  function Emit(env: Env, s: State, id: JobId, to: JobPhase, reason: TransitionReason): State {
    s.(phases := s.phases[id := to],
       log := s.log + [TransitionEvent(env.clock(s.now), id, s.PhaseOf(id), to, reason)],
       now := s.now + 1)
  }

  /** Apply one signal; a rejected one changes nothing. */
  function Dispatch(env: Env, s: State, id: JobId, signal: Signal): State {
    match Advance(s.PhaseOf(id), signal)
    case Ok(to) => Emit(env, s, id, to, ReasonFrom(signal))
    case Err(_) => s
  }

  function KindOutcomes(env: Env, s: State, id: JobId): seq<GateOutcome> {
    var gates := env.GatesOf(id);
    seq(|gates|, i requires 0 <= i < |gates| => gates[i](id, s.phases, s.now))
  }

  function GateVerdict(env: Env, s: State, id: JobId): GateAggregate {
    Aggregate([UpstreamVerdict(env.graph.Predecessors(id), s.phases)] + KindOutcomes(env, s, id))
  }

  /** The retry decision; the clock is read only when the policy says retry. */
  function DecideRetry(env: Env, s: State, id: JobId): (State, RetryOutcome) {
    var attempt := if id in s.attempts then s.attempts[id] else 1;
    match env.PolicyOf(id).Decide(attempt, s.HistoryOf(id))
    case GiveUp => (s, Deadletter)
    case RetryAfter(afterMs) => (s.(now := s.now + 1), Retry(Deadline(env.clock(s.now), afterMs)))
  }

  /** What the driver decides for a job it saw in phase `from`: the signal to
      dispatch, if any, and the state after the reads and the slot reservation. */
  function Act(env: Env, s: State, id: JobId, from: JobPhase): (State, Option<Signal>) {
    match from
    case Pending => (s.(now := s.now + 1), Some(EvaluateGates(GateVerdict(env, s, id))))
    case Gated =>
      var aggregate := GateVerdict(env, s, id);
      (s.(now := s.now + 1), if aggregate.SomeWaiting? then None else Some(EvaluateGates(aggregate)))
    case Retrying(untilMs) =>
      (s.(now := s.now + 1), if env.clock(s.now) < untilMs then None else Some(BackoffElapsed))
    case Ready =>
      if Refusal(env.caps, s.slots, id).Some? then (s, None)
      else (s.(slots := Take(s.slots, id)), Some(AllocateBudget))
    case Failed(_) =>
      var (s', outcome) := DecideRetry(env, s, id);
      (s', Some(RetryDecide(outcome)))
    case _ => (s, None)
  }

  function Trim(history: seq<FailureRecord>): seq<FailureRecord> {
    if |history| > HISTORY_LIMIT then history[|history| - HISTORY_LIMIT..] else history
  }

  function FailureAt(attempt: nat, atMs: int): FailureRecord {
    FailureRecord(attempt, atMs, FAILURE_TEXT, Transient)
  }

  /** Count a failed execution and remember it. */
  function Book(env: Env, s: State, id: JobId): State {
    var attempt := s.AttemptsOf(id) + 1;
    var record := FailureAt(attempt, env.clock(s.now));
    s.(attempts := s.attempts[id := attempt],
       history := s.history[id := Trim(s.HistoryOf(id) + [record])],
       now := s.now + 1)
  }

  function Forget(s: State, id: JobId): State {
    s.(attempts := s.attempts - {id}, history := s.history - {id})
  }

  function Free(s: State, id: JobId): State {
    s.(slots := GiveBack(s.slots, id))
  }

  // ----- The driver -----

  /** One step of one job, and whether it made progress. */
  function AdvanceOnce(env: Env, s: State, id: JobId): (State, bool) {
    var (s', signal) := Act(env, s, id, s.PhaseOf(id));
    match signal
    case Some(signal) => (Dispatch(env, s', id, signal), true)
    case None => (s', false)
  }

  /** At most `fuel` steps of one job, stopping at Running. */
  function Drive(env: Env, s: State, id: JobId, fuel: nat): State
    decreases fuel
  {
    if fuel == 0 || s.PhaseOf(id).Running? then s
    else
      var (s', progressed) := AdvanceOnce(env, s, id);
      if progressed then Drive(env, s', id, fuel - 1) else s'
  }

  const FIRST_FUEL: nat := 6
  const DRAIN_FUEL: nat := 3

  /** Pass 1 over a wave: seed and drive each job. */
  function DriveWave(env: Env, s: State, wave: seq<JobId>): State
    decreases |wave|
  {
    if wave == [] then s
    else DriveWave(env, Drive(env, Seed(s, wave[0]), wave[0], FIRST_FUEL), wave[1..])
  }

  /** Pass 3 over a wave: drain each job. */
  function DrainWave(env: Env, s: State, wave: seq<JobId>): State
    decreases |wave|
  {
    if wave == [] then s
    else DrainWave(env, Drive(env, s, wave[0], DRAIN_FUEL), wave[1..])
  }

  function ApplyResult(env: Env, s: State, id: JobId, ok: bool): State {
    if ok then Free(Forget(Dispatch(env, s, id, ExecutionSucceeded), id), id)
    else Free(Dispatch(env, Book(env, s, id), id, ExecutionFailed), id)
  }

  /** A job nobody registered fails; a panic delivers no result. */
  function ResultOf(env: Env, s: State, moment: nat, id: JobId): Outcome {
    if id in s.jobs then env.outcome(moment, id) else Errored
  }

  function ApplyAll(env: Env, s: State, arrivals: seq<JobId>, moment: nat): State
    decreases |arrivals|
  {
    if arrivals == [] then s
    else
      var id := arrivals[0];
      var outcome := ResultOf(env, s, moment, id);
      var s' := if outcome.Panicked? then s else ApplyResult(env, s, id, outcome.Completed?);
      ApplyAll(env, s', arrivals[1..], moment)
  }

  function RunningIn(s: State, wave: seq<JobId>): seq<JobId> {
    if wave == [] then []
    else (if s.PhaseOf(wave[0]).Running? then [wave[0]] else []) + RunningIn(s, wave[1..])
  }

  /** Pass 2 over a wave: execute everything Running and apply the results. */
  function Execute(env: Env, s: State, wave: seq<JobId>): State {
    var ids := RunningIn(s, wave);
    if ids == [] then s
    else ApplyAll(env, s.(runs := s.runs + ids, now := s.now + 1), env.ArrivalOrder(s.now, ids), s.now)
  }

  function RunWave(env: Env, s: State, wave: seq<JobId>): State {
    DrainWave(env, Execute(env, DriveWave(env, s, wave), wave), wave)
  }

  function RunWaves(env: Env, s: State, waves: seq<seq<JobId>>): State
    decreases |waves|
  {
    if waves == [] then s else RunWaves(env, RunWave(env, s, waves[0]), waves[1..])
  }

  /** A whole tick over an acyclic graph: one clock reading, then the waves. */
  function Tick(env: Env, s: State, waves: seq<seq<JobId>>): State {
    RunWaves(env, s.(now := s.now + 1), waves)
  }

  predicate AllDistinct(waves: seq<seq<JobId>>) {
    forall k | 0 <= k < |waves| :: Distinct(waves[k])
  }

  function Union(waves: seq<seq<JobId>>): set<JobId> {
    set k, id | 0 <= k < |waves| && id in waves[k] :: id
  }

  predicate AllDisjoint(waves: seq<seq<JobId>>) {
    forall j, k | 0 <= j < k < |waves| :: Members(waves[j]) !! Members(waves[k])
  }

  predicate EdgesForward(graph: Graph, waves: seq<seq<JobId>>) {
    forall k, id | 0 <= k < |waves| && id in waves[k] :: graph.Predecessors(id) <= Union(waves[..k])
  }

  /** What the layering of the graph promises the driver: every node in exactly
      one wave, and every edge coming from a strictly earlier wave. */
  predicate Stratified(graph: Graph, waves: seq<seq<JobId>>) {
    && AllDistinct(waves)
    && AllDisjoint(waves)
    && Union(waves) == graph.nodes
    && EdgesForward(graph, waves)
  }

  /** A scheduler nothing has happened to, apart from registrations. */
  ghost predicate Fresh(s: State) {
    && (forall id | id in s.phases :: s.phases[id].Pending?)
    && s.attempts == map[] && s.history == map[]
    && s.slots == NO_SLOTS && s.log == [] && s.runs == []
  }
}
