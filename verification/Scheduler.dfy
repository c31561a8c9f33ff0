/** The scheduler object: its fields, its operations, and the tick that drives them.
    Every operation is shown to do what the driver functions say. */
module Scheduler {
  import opened Types
  import opened Retry
  import opened Gate
  import opened Budget
  import opened Driver
  import opened Machine
  import opened Layering
  import opened Dag
  import opened Restart
  import opened Snapshot
  import opened Accounting
  import opened Fuel
  import opened TickOnce
  import opened LogHistory

  /** The outside: clock readings, execution results, and the order they arrive in. */
  datatype World = World(
    clock: nat -> int,
    outcome: (nat, JobId) -> Outcome,
    order: (nat, seq<JobId>) -> seq<JobId>)

  datatype SchedulerError = Topology(dag: DagError) | Illegal(transition: IllegalTransition)

  datatype TickReceipt = TickReceipt(
    tickAt: int,
    phaseCounts: map<string, nat>,
    transitions: seq<TransitionEvent>,
    unhealed: seq<UnhealedDrift>)

  const NO_GRAPH := Graph({}, {})

  // ----- Results of one batch -----

  /** The results that arrive, in order; a panicked execution delivers none. */
  function Delivered(env: Env, s: State, arrivals: seq<JobId>, moment: nat): seq<(JobId, bool)> {
    if arrivals == [] then []
    else
      var outcome := ResultOf(env, s, moment, arrivals[0]);
      (if outcome.Panicked? then [] else [(arrivals[0], outcome.Completed?)])
      + Delivered(env, s, arrivals[1..], moment)
  }

  function ApplyDelivered(env: Env, s: State, results: seq<(JobId, bool)>): State
    decreases |results|
  {
    if results == [] then s
    else ApplyDelivered(env, ApplyResult(env, s, results[0].0, results[0].1), results[1..])
  }

  lemma {:induction false} DeliveredIsApplied(env: Env, s: State, s0: State, arrivals: seq<JobId>, moment: nat)
    requires s.jobs == s0.jobs
    ensures ApplyAll(env, s, arrivals, moment) == ApplyDelivered(env, s, Delivered(env, s0, arrivals, moment))
    decreases |arrivals|
  {
    hide ApplyResult;
    if arrivals != [] {
      var outcome := ResultOf(env, s, moment, arrivals[0]);
      var rest := Delivered(env, s0, arrivals[1..], moment);
      if outcome.Panicked? {
        DeliveredIsApplied(env, s, s0, arrivals[1..], moment);
        assert Delivered(env, s0, arrivals, moment) == rest;
      } else {
        var s1 := ApplyResult(env, s, arrivals[0], outcome.Completed?);
        ApplyResultKeepsJobs(env, s, arrivals[0], outcome.Completed?);
        DeliveredIsApplied(env, s1, s0, arrivals[1..], moment);
        assert Delivered(env, s0, arrivals, moment) == [(arrivals[0], outcome.Completed?)] + rest;
      }
    }
  }

  lemma ApplyResultKeepsJobs(env: Env, s: State, id: JobId, ok: bool)
    ensures ApplyResult(env, s, id, ok).jobs == s.jobs
  {
  }

  lemma DeliveredNext(env: Env, s: State, arrivals: seq<JobId>, i: nat, moment: nat, results: seq<(JobId, bool)>)
    requires i < |arrivals|
    ensures var outcome := ResultOf(env, s, moment, arrivals[i]);
            results + Delivered(env, s, arrivals[i..], moment) ==
            (if outcome.Panicked? then results else results + [(arrivals[i], outcome.Completed?)])
            + Delivered(env, s, arrivals[i + 1..], moment)
  {
    assert arrivals[i..][0] == arrivals[i] && arrivals[i..][1..] == arrivals[i + 1..];
  }

  lemma DeliveredNone(env: Env, s: State, arrivals: seq<JobId>, moment: nat)
    ensures Delivered(env, s, arrivals[|arrivals|..], moment) == []
    ensures Delivered(env, s, arrivals[0..], moment) == Delivered(env, s, arrivals, moment)
  {
    assert arrivals[0..] == arrivals;
  }

  /** Results for different jobs, each of them Running. */
  predicate Deliverable(s: State, results: seq<(JobId, bool)>) {
    && (forall i, j | 0 <= i < j < |results| :: results[i].0 != results[j].0)
    && (forall i | 0 <= i < |results| :: s.PhaseOf(results[i].0).Running?)
  }

  lemma {:induction false} DeliveredAmong(env: Env, s: State, arrivals: seq<JobId>, moment: nat)
    ensures forall i | 0 <= i < |Delivered(env, s, arrivals, moment)| ::
              Delivered(env, s, arrivals, moment)[i].0 in arrivals
  {
    if arrivals != [] {
      DeliveredAmong(env, s, arrivals[1..], moment);
    }
  }

  lemma {:induction false} DeliveredDeliverable(env: Env, s: State, arrivals: seq<JobId>, moment: nat)
    requires Launchable(s, arrivals)
    ensures Deliverable(s, Delivered(env, s, arrivals, moment))
  {
    if arrivals != [] {
      assert arrivals[0] !in arrivals[1..];
      DeliveredAmong(env, s, arrivals[1..], moment);
      DeliveredDeliverable(env, s, arrivals[1..], moment);
    }
  }

  lemma DeliverNext(env: Env, s: State, results: seq<(JobId, bool)>)
    requires Deliverable(s, results) && results != []
    ensures s.PhaseOf(results[0].0).Running?
    ensures Deliverable(ApplyResult(env, s, results[0].0, results[0].1), results[1..])
  {
    forall i | 0 <= i < |results[1..]| ensures results[1..][i].0 != results[0].0 {
    }
  }

  lemma ResultFits(phase: JobPhase)
    ensures Advance(phase, ExecutionSucceeded).Ok? <==> phase.Running?
    ensures Advance(phase, ExecutionFailed).Ok? <==> phase.Running?
  {
  }

  class InProcessScheduler {
    var phases: Phases
    var jobs: set<JobId>
    var gates: map<JobKindId, seq<KindGate>>
    var retryPolicies: map<JobKindId, RetryPolicy>
    var attempts: map<JobId, nat>
    var failureHistory: map<JobId, seq<FailureRecord>>
    const budget: BudgetTree
    const world: World
    /** What the emitter has been sent, and which executions were started. */
    var emitted: seq<TransitionEvent>
    var runs: seq<JobId>
    /** Readings of the world so far. */
    var readings: nat

    ghost function View(): State
      reads this, budget
    {
      State(phases, attempts, failureHistory, jobs, budget.Out(), emitted, runs, readings)
    }

    /** The scheduler's configuration in the face of a graph. */
    function Config(graph: Graph): Env
      reads this, budget
    {
      Env(graph, gates, retryPolicies, budget.caps, world.clock, world.outcome, world.order)
    }

    /** `env` is this scheduler's configuration in the face of its graph. */
    ghost predicate Runs(env: Env)
      reads this, budget
    {
      env == Config(env.graph)
    }

    constructor (budget: BudgetTree, world: World)
      ensures this.budget == budget && this.world == world
      ensures phases == map[] && attempts == map[] && failureHistory == map[] && jobs == {}
      ensures gates == map[] && retryPolicies == map[] && emitted == [] && runs == [] && readings == 0
      ensures budget.Out() == NO_SLOTS ==> Fresh(View())
    {
      this.budget, this.world := budget, world;
      phases, attempts, failureHistory, jobs := map[], map[], map[], {};
      gates, retryPolicies := map[], map[];
      emitted, runs, readings := [], [], 0;
    }

    // ----- Configuration -----

    /** Jobs of the kind have one more gate, asked last; nothing else is affected. */
    method RegisterGate(kind: JobKindId, gate: KindGate)
      modifies this`gates
      ensures forall graph, id :: Config(graph).GatesOf(id) ==
                old(Config(graph).GatesOf(id)) + if id.kind == kind then [gate] else []
      ensures forall graph :: Config(graph).(gates := old(gates)) == old(Config(graph))
    {
      gates := gates[kind := (if kind in gates then gates[kind] else []) + [gate]];
    }

    /** Jobs of the kind are decided by the policy from now on; nothing else is affected. */
    method RegisterRetryPolicy(kind: JobKindId, policy: RetryPolicy)
      modifies this`retryPolicies
      ensures forall graph, id :: Config(graph).PolicyOf(id) ==
                if id.kind == kind then policy else old(Config(graph).PolicyOf(id))
      ensures forall graph :: Config(graph).(policies := old(retryPolicies)) == old(Config(graph))
    {
      retryPolicies := retryPolicies[kind := policy];
    }

    /** Seed as Pending if absent, and keep the executable. */
    method RegisterJob(id: JobId)
      modifies this`phases, this`jobs
      ensures View() == Register(old(View()), id)
    {
      if id !in phases {
        phases := phases[id := Pending];
      }
      jobs := jobs + {id};
    }

    // ----- Small moves -----

    function PhaseOf(id: JobId): JobPhase
      reads this
    {
      PhaseIn(phases, id)
    }

    method ReadClock() returns (t: int)
      modifies this`readings
      ensures t == world.clock(old(readings)) && readings == old(readings) + 1
    {
      t := world.clock(readings);
      readings := readings + 1;
    }

    /** Apply one signal, log the transition; a rejected signal changes nothing. */
    method Dispatch(id: JobId, signal: Signal, ghost env: Env) returns (r: Result<(), SchedulerError>)
      requires Runs(env)
      modifies this`phases, this`emitted, this`readings
      ensures Runs(env) && View() == Driver.Dispatch(env, old(View()), id, signal)
      ensures r == match Advance(old(PhaseOf(id)), signal)
                   case Ok(_) => Ok(())
                   case Err(error) => Err(Illegal(error))
      ensures r.Err? ==> View() == old(View())
      ensures r.Ok? ==>
                emitted == old(emitted)
                  + [TransitionEvent(world.clock(old(readings)), id, old(PhaseOf(id)), PhaseOf(id), ReasonFrom(signal))]
    {
      hide Advance, ReasonFrom;
      var from := PhaseOf(id);
      match Advance(from, signal)
      case Err(error) => return Err(Illegal(error));
      case Ok(to) =>
        phases := phases[id := to];
        var at := ReadClock();
        emitted := emitted + [TransitionEvent(at, id, from, to, ReasonFrom(signal))];
        return Ok(());
    }

    /** An operator's command: legal from the two operator phases only. */
    method OperatorTransition(id: JobId, target: JobPhase, reason: TransitionReason)
      returns (r: Result<(), SchedulerError>)
      modifies this`phases, this`emitted, this`readings
      ensures r.Ok? <==> Advance(old(PhaseOf(id)), Signal.OperatorTransition(target)).Ok?
      ensures r.Ok? ==>
                View() == Emit(Config(NO_GRAPH), old(View()), id,
                               Advance(old(PhaseOf(id)), Signal.OperatorTransition(target)).value, reason)
      ensures r.Err? ==> View() == old(View())
    {
      hide Advance;
      var from := PhaseOf(id);
      match Advance(from, Signal.OperatorTransition(target))
      case Err(error) => return Err(Illegal(error));
      case Ok(to) =>
        phases := phases[id := to];
        var at := ReadClock();
        emitted := emitted + [TransitionEvent(at, id, from, to, reason)];
        return Ok(());
    }

    /** The implicit gate and the gates of the job's kind, reduced to one aggregate. */
    method EvaluateGates(id: JobId, dag: Dag, ghost env: Env) returns (aggregate: GateAggregate)
      requires dag.Valid() && env.graph == dag.Model() && Runs(env)
      ensures aggregate == GateVerdict(env, View(), id)
    {
      hide Aggregate, UpstreamVerdict, KindOutcomes;
      var predecessors := dag.Predecessors(id);
      var upstreams := AllUpstreamsTerminal(predecessors, phases);
      var kindOutcomes := EvaluateKindGates(id, env);
      aggregate := Reduce([upstreams] + kindOutcomes);
    }

    method EvaluateKindGates(id: JobId, ghost env: Env) returns (outcomes: seq<GateOutcome>)
      requires Runs(env)
      ensures outcomes == KindOutcomes(env, View(), id)
    {
      var kindGates := if id.kind in gates then gates[id.kind] else [];
      outcomes := [];
      for i := 0 to |kindGates|
        invariant |outcomes| == i
        invariant forall j | 0 <= j < i :: outcomes[j] == kindGates[j](id, phases, readings)
      {
        outcomes := outcomes + [kindGates[i](id, phases, readings)];
      }
    }

    method DecideRetry(id: JobId, ghost env: Env) returns (outcome: RetryOutcome)
      requires Runs(env)
      modifies this`readings
      ensures Runs(env) && (View(), outcome) == Driver.DecideRetry(env, old(View()), id)
    {
      var policy := if id.kind in retryPolicies then retryPolicies[id.kind] else NoRetry;
      var attempt := if id in attempts then attempts[id] else 1;
      var history := if id in failureHistory then failureHistory[id] else [];
      match policy.Decide(attempt, history)
      case GiveUp => return Deadletter;
      case RetryAfter(afterMs) =>
        var nowMs := ReadClock();
        return Retry(Deadline(nowMs, afterMs));
    }

    // ----- One job -----

    /** Dispatch, and report progress unless the signal was rejected. */
    method Fire(id: JobId, signal: Signal, ghost env: Env) returns (r: Result<bool, SchedulerError>)
      requires Runs(env)
      modifies this`phases, this`emitted, this`readings
      ensures Runs(env) && View() == Driver.Dispatch(env, old(View()), id, signal)
      ensures if Advance(old(PhaseOf(id)), signal).Ok? then r == Ok(true) else r.Err?
    {
      hide Driver.Dispatch, Advance;
      var done := Dispatch(id, signal, env);
      match done
      case Ok(_) => return Ok(true);
      case Err(error) => return Err(error);
    }

    /** One step of one job from the phase it was seen in; never an illegal one. */
    method AdvanceOnce(id: JobId, from: JobPhase, dag: Dag, ghost env: Env) returns (r: Result<bool, SchedulerError>)
      requires dag.Valid() && env.graph == dag.Model() && Runs(env) && from == PhaseOf(id)
      modifies this`phases, this`emitted, this`readings, budget
      ensures dag.Valid() && env.graph == dag.Model() && Runs(env)
      ensures r.Ok? && (View(), r.value) == Driver.AdvanceOnce(env, old(View()), id)
    {
      hide Advance, Driver.Dispatch, Driver.DecideRetry, GateVerdict, Refusal, Take;
      ActLegal(env, View(), id);
      match from
      case Succeeded => return Ok(false);
      case Skipped(_) => return Ok(false);
      case Deadlettered => return Ok(false);
      case WaitingForOperator => return Ok(false);
      case Running => return Ok(false);
      case Pending =>
        var aggregate := EvaluateGates(id, dag, env);
        readings := readings + 1;
        r := Fire(id, Signal.EvaluateGates(aggregate), env);
      case Gated =>
        var aggregate := EvaluateGates(id, dag, env);
        readings := readings + 1;
        if aggregate.SomeWaiting? {
          return Ok(false);
        }
        r := Fire(id, Signal.EvaluateGates(aggregate), env);
      case Retrying(untilMs) =>
        var nowMs := ReadClock();
        if nowMs < untilMs {
          return Ok(false);
        }
        r := Fire(id, BackoffElapsed, env);
      case Ready =>
        var refused := budget.TryAllocate(id);
        if refused.Some? {
          return Ok(false);
        }
        r := Fire(id, AllocateBudget, env);
      case Failed(_) =>
        var outcome := DecideRetry(id, env);
        r := Fire(id, RetryDecide(outcome), env);
    }

    /** The fuelled loop of pass 1 and pass 3: step until Running, stuck or out of fuel. */
    method DriveJob(id: JobId, fuel: nat, dag: Dag, ghost env: Env)
      requires dag.Valid() && env.graph == dag.Model() && Runs(env)
      modifies this`phases, this`emitted, this`readings, budget
      ensures dag.Valid() && env.graph == dag.Model() && Runs(env)
      ensures View() == Drive(env, old(View()), id, fuel)
    {
      hide Driver.AdvanceOnce;
      ghost var s0 := View();
      for left := fuel downto 0
        invariant dag.Valid() && env.graph == dag.Model() && Runs(env)
        invariant Drive(env, View(), id, left) == Drive(env, s0, id, fuel)
      {
        var from := PhaseOf(id);
        if from.Running? {
          return;
        }
        var step := AdvanceOnce(id, from, dag, env);
        if !step.value {
          return;
        }
      }
    }

    // ----- One batch -----

    /** Start every job of `ids`, and collect what comes back in the order it comes. */
    method ExecuteConcurrent(ids: seq<JobId>, ghost env: Env) returns (results: seq<(JobId, bool)>)
      requires Runs(env)
      modifies this`runs, this`readings
      ensures Runs(env)
      ensures View() == old(View()).(runs := old(runs) + ids, now := old(readings) + 1)
      ensures results == Delivered(env, old(View()), env.ArrivalOrder(old(readings), ids), old(readings))
    {
      hide Delivered;
      ghost var s0 := View();
      var moment := readings;
      runs, readings := runs + ids, readings + 1;
      var answer := world.order(moment, ids);
      var arrivals := if multiset(answer) == multiset(ids) then answer else ids;
      results := [];
      for i := 0 to |arrivals|
        invariant Runs(env) && View() == s0.(runs := s0.runs + ids, now := moment + 1)
        invariant results + Delivered(env, s0, arrivals[i..], moment) == Delivered(env, s0, arrivals, moment)
      {
        var id := arrivals[i];
        var outcome := if id in jobs then world.outcome(moment, id) else Errored;
        DeliveredNext(env, s0, arrivals, i, moment, results);
        if !outcome.Panicked? {
          results := results + [(id, outcome.Completed?)];
        }
      }
      DeliveredNone(env, s0, arrivals, moment);
    }

    /** Book one result: phase, counter, memory and slot. A failure that is rejected has
        been counted all the same. */
    method ApplyExecutionResult(id: JobId, ok: bool, ghost env: Env) returns (r: Result<(), SchedulerError>)
      requires Runs(env)
      modifies this`phases, this`attempts, this`failureHistory, this`emitted, this`readings, budget
      ensures Runs(env)
      ensures r.Ok? <==> old(PhaseOf(id)).Running?
      ensures r.Ok? ==> View() == ApplyResult(env, old(View()), id, ok)
      ensures r.Err? ==> View() == if ok then old(View()) else Book(env, old(View()), id)
    {
      hide GiveBack, Driver.Dispatch, Book, Advance;
      ResultFits(PhaseOf(id));
      if ok {
        r := Dispatch(id, ExecutionSucceeded, env);
        if r.Err? {
          return;
        }
        attempts, failureHistory := attempts - {id}, failureHistory - {id};
      } else {
        CountFailure(id, env);
        r := Dispatch(id, ExecutionFailed, env);
        if r.Err? {
          return;
        }
      }
      budget.Release(id);
    }

    /** Raise the attempt counter and append a record, keeping the last sixteen. */
    method CountFailure(id: JobId, ghost env: Env)
      requires Runs(env)
      modifies this`attempts, this`failureHistory, this`readings
      ensures Runs(env) && View() == Book(env, old(View()), id)
    {
      hide FailureAt, Trim;
      var attempt := (if id in attempts then attempts[id] else 0) + 1;
      var history := if id in failureHistory then failureHistory[id] else [];
      var atMs := ReadClock();
      attempts := attempts[id := attempt];
      failureHistory := failureHistory[id := Trim(history + [FailureAt(attempt, atMs)])];
    }

    // ----- One wave -----

    /** Pass 1. */
    method DrivePass(wave: seq<JobId>, dag: Dag, ghost env: Env)
      requires dag.Valid() && env.graph == dag.Model() && Runs(env)
      modifies this`phases, this`emitted, this`readings, budget
      ensures dag.Valid() && env.graph == dag.Model() && Runs(env)
      ensures View() == DriveWave(env, old(View()), wave)
    {
      hide Drive;
      ghost var s0 := View();
      for i := 0 to |wave|
        invariant dag.Valid() && env.graph == dag.Model() && Runs(env)
        invariant DriveWave(env, View(), wave[i..]) == DriveWave(env, s0, wave)
      {
        var id := wave[i];
        assert wave[i..][0] == id && wave[i..][1..] == wave[i + 1..];
        ghost var s := View();
        if id !in phases {
          phases := phases[id := Pending];
        }
        assert View() == Seed(s, id);
        DriveJob(id, FIRST_FUEL, dag, env);
      }
    }

    /** Pass 3. */
    method DrainPass(wave: seq<JobId>, dag: Dag, ghost env: Env)
      requires dag.Valid() && env.graph == dag.Model() && Runs(env)
      modifies this`phases, this`emitted, this`readings, budget
      ensures dag.Valid() && env.graph == dag.Model() && Runs(env)
      ensures View() == DrainWave(env, old(View()), wave)
    {
      hide Drive;
      ghost var s0 := View();
      for i := 0 to |wave|
        invariant dag.Valid() && env.graph == dag.Model() && Runs(env)
        invariant DrainWave(env, View(), wave[i..]) == DrainWave(env, s0, wave)
      {
        assert wave[i..][0] == wave[i] && wave[i..][1..] == wave[i + 1..];
        DriveJob(wave[i], DRAIN_FUEL, dag, env);
      }
    }

    method CollectRunning(wave: seq<JobId>) returns (ids: seq<JobId>)
      ensures ids == RunningIn(View(), wave)
    {
      ids := [];
      for i := 0 to |wave|
        invariant ids + RunningIn(View(), wave[i..]) == RunningIn(View(), wave)
      {
        assert wave[i..][0] == wave[i] && wave[i..][1..] == wave[i + 1..];
        ghost var rest := RunningIn(View(), wave[i + 1..]);
        if PhaseOf(wave[i]).Running? {
          assert ids + ([wave[i]] + rest) == ids + [wave[i]] + rest;
          ids := ids + [wave[i]];
        } else {
          assert [] + rest == rest;
        }
      }
      assert RunningIn(View(), wave[|wave|..]) == [];
    }

    /** Pass 2. Each id of the batch is Running when its result is applied. */
    method ExecutePass(wave: seq<JobId>, ghost env: Env)
      requires Runs(env) && Distinct(wave)
      modifies this`phases, this`attempts, this`failureHistory, this`emitted, this`readings, this`runs, budget
      ensures Runs(env)
      ensures View() == Execute(env, old(View()), wave)
    {
      hide ApplyResult, ApplyAll, Delivered, RunningIn;
      ghost var s := View();
      var ids := CollectRunning(wave);
      if ids == [] {
        return;
      }
      ArrivalFacts(env, s, wave, ids, env.ArrivalOrder(readings, ids));
      var results := ExecuteConcurrent(ids, env);
      DeliveredDeliverable(env, s, env.ArrivalOrder(s.now, ids), s.now);
      DeliveredIsApplied(env, View(), s, env.ArrivalOrder(s.now, ids), s.now);
      ApplyBatch(results, env);
    }

    method ApplyBatch(results: seq<(JobId, bool)>, ghost env: Env)
      requires Runs(env) && Deliverable(View(), results)
      modifies this`phases, this`attempts, this`failureHistory, this`emitted, this`readings, budget
      ensures Runs(env)
      ensures View() == ApplyDelivered(env, old(View()), results)
    {
      hide ApplyResult, Deliverable;
      ghost var s0 := View();
      for i := 0 to |results|
        invariant Runs(env) && Deliverable(View(), results[i..])
        invariant ApplyDelivered(env, View(), results[i..]) == ApplyDelivered(env, s0, results)
      {
        assert results[i..][0] == results[i] && results[i..][1..] == results[i + 1..];
        DeliverNext(env, View(), results[i..]);
        var applied := ApplyExecutionResult(results[i].0, results[i].1, env);
      }
    }

    method RunWave(wave: seq<JobId>, dag: Dag, ghost env: Env)
      requires dag.Valid() && env.graph == dag.Model() && Runs(env) && Distinct(wave)
      modifies this`phases, this`attempts, this`failureHistory, this`emitted, this`readings, this`runs, budget
      ensures dag.Valid() && env.graph == dag.Model() && Runs(env)
      ensures View() == Driver.RunWave(env, old(View()), wave)
    {
      hide DriveWave, Execute, DrainWave;
      DrivePass(wave, dag, env);
      ExecutePass(wave, env);
      DrainPass(wave, dag, env);
    }

    method RunWaves(waves: seq<seq<JobId>>, dag: Dag, ghost env: Env)
      requires dag.Valid() && env.graph == dag.Model() && Runs(env) && AllDistinct(waves)
      modifies this`phases, this`attempts, this`failureHistory, this`emitted, this`readings, this`runs, budget
      ensures dag.Valid() && env.graph == dag.Model() && Runs(env)
      ensures View() == Driver.RunWaves(env, old(View()), waves)
    {
      hide Driver.RunWave;
      ghost var s0 := View();
      for i := 0 to |waves|
        invariant dag.Valid() && env.graph == dag.Model() && Runs(env)
        invariant Driver.RunWaves(env, View(), waves[i..]) == Driver.RunWaves(env, s0, waves)
      {
        assert waves[i..][0] == waves[i] && waves[i..][1..] == waves[i + 1..];
        RunWave(waves[i], dag, env);
      }
    }

    // ----- The tick -----

    /** A tick fails only on a cyclic graph, before it touches any job. On an acyclic
        one it is the driver's tick over the graph's layering, and its receipt lists
        exactly the events it emitted, the jobs by phase, and the jobs in need of an
        operator. */
    method Tick(dag: Dag) returns (r: Result<TickReceipt, SchedulerError>, ghost waves: seq<seq<JobId>>)
      requires dag.Valid()
      modifies this`phases, this`attempts, this`failureHistory, this`emitted, this`readings, this`runs, budget
      ensures dag.Valid() && dag.Model() == old(dag.Model()) && budget.caps == old(budget.caps)
      ensures r.Err? ==>
                && r.error.Topology? && r.error.dag.Cycle? && OnCycle(dag.Model(), r.error.dag.id)
                && View() == old(View()).(now := old(readings) + 1)
      ensures r.Ok? ==>
                && (forall id :: !OnCycle(dag.Model(), id))
                && Layered(dag.Model(), dag.Model().nodes, waves) && AllSorted(waves)
                && Stratified(dag.Model(), waves)
                && View() == Driver.Tick(Config(dag.Model()), old(View()), waves)
                && r.value.tickAt == world.clock(old(readings))
                && emitted == old(emitted) + r.value.transitions
                && (forall e | e in r.value.transitions :: ReasonFits(e) && !e.from.OperatorOnly())
                && Counted(phases, r.value.phaseCounts)
                && UnhealedIn(phases, r.value.unhealed)
      ensures r.Ok? && Settled(Config(dag.Model()), old(View())) ==> Settled(Config(dag.Model()), View())
      ensures r.Ok? ==>
                && (forall id | id in dag.Model().nodes :: !PhaseOf(id).Failed?)
                && exists executed :: ExecutedOnce(old(runs), runs, executed, dag.Model().nodes)
    {
      hide ReasonFits;
      hide Settled, ExecutedOnce, Driver.RunWaves, Layered, Stratified, OnCycle, AllDistinct, AllDisjoint, EdgesForward, AllSorted;
      ghost var s0, env := View(), Config(dag.Model());
      var startedAt := ReadClock();
      var layering := dag.Waves(None);
      waves := [];
      if layering.Err? {
        return Err(Topology(layering.error)), [];
      }
      waves := layering.value;
      WavesFit(dag, waves);
      var sent := |emitted|;
      RunWaves(layering.value, dag, env);
      assert View() == Driver.Tick(env, s0, waves);
      TickExtendsLog(env, s0, waves);
      TickGuarantees(env, s0, waves);
      var phaseCounts := PhaseCounts(phases);
      var unhealed := CollectUnhealed(phases);
      r := Ok(TickReceipt(startedAt, phaseCounts, emitted[sent..], unhealed));
    }

    // ----- Snapshots -----

    /** Every known job once, in whatever order the map hands them out. */
    method SnapshotState() returns (snapshot: seq<StoredJobState>)
      ensures Distinct(IdsOf(snapshot)) && Members(IdsOf(snapshot)) == phases.Keys
      ensures snapshot == Project(View(), IdsOf(snapshot))
    {
      snapshot := [];
      ghost var order: seq<JobId> := [];
      var todo := phases.Keys;
      while todo != {}
        invariant todo <= phases.Keys && Distinct(order) && snapshot == Project(View(), order)
        invariant forall id :: id in order <==> id in phases && id !in todo
        decreases todo
      {
        var id :| id in todo;
        snapshot := snapshot
          + [StoredJobState(id, phases[id], if id in attempts then attempts[id] else 0,
                            if id in failureHistory then failureHistory[id] else [])];
        order, todo := order + [id], todo - {id};
      }
      assert IdsOf(snapshot) == order;
    }

    /** Overlay a snapshot; the budget is left as it is. */
    method RestoreState(snapshot: seq<StoredJobState>)
      modifies this`phases, this`attempts, this`failureHistory
      ensures View() == Restore(old(View()), snapshot)
    {
      ghost var s0 := View();
      for i := 0 to |snapshot|
        invariant Restore(View(), snapshot[i..]) == Restore(s0, snapshot)
      {
        var job := snapshot[i];
        assert snapshot[i..][0] == job && snapshot[i..][1..] == snapshot[i + 1..];
        phases := phases[job.id := job.phase];
        if job.attempts > 0 {
          attempts := attempts[job.id := job.attempts];
        }
        if job.failureHistory != [] {
          failureHistory := failureHistory[job.id := job.failureHistory];
        }
      }
    }
  }

  lemma WavesFit(dag: Dag, waves: seq<seq<JobId>>)
    requires dag.Valid() && Layered(dag.Model(), dag.Model().nodes, waves)
    ensures Stratified(dag.Model(), waves) && AllDistinct(waves)
  {
    GraphWellFormed(dag.nodes, dag.edges, dag.index, dag.declared);
    LayeredIsStratified(dag.Model(), waves);
  }

  /** What was run since: `executed`, each at most once, and only nodes of the graph. */
  ghost predicate ExecutedOnce(before: seq<JobId>, after: seq<JobId>, executed: seq<JobId>, nodes: set<JobId>) {
    after == before + executed && Distinct(executed) && Members(executed) <= nodes
  }

  /** What every tick keeps, whatever the oracles answer. */
  lemma TickGuarantees(env: Env, s: State, waves: seq<seq<JobId>>)
    requires Stratified(env.graph, waves)
    ensures var s' := Driver.Tick(env, s, waves);
            && (Settled(env, s) ==> Settled(env, s'))
            && (forall id | id in env.graph.nodes :: !s'.PhaseOf(id).Failed?)
            && exists executed :: ExecutedOnce(s.runs, s'.runs, executed, env.graph.nodes)
  {
    hide Driver.Tick;
    var executed := TickExecutesOnce(env, s, waves);
    assert ExecutedOnce(s.runs, Driver.Tick(env, s, waves).runs, executed, env.graph.nodes);
    forall id | id in env.graph.nodes ensures !Driver.Tick(env, s, waves).PhaseOf(id).Failed? {
      TickLeavesNoneFailed(env, s, waves, id);
    }
    if Settled(env, s) {
      TickSettled(env, s, waves);
    }
  }

  lemma TickExtendsLog(env: Env, s: State, waves: seq<seq<JobId>>)
    requires AllDistinct(waves)
    ensures var s' := Driver.Tick(env, s, waves);
            && |s.log| <= |s'.log| && s'.log == s.log + s'.log[|s.log|..]
            && forall e | e in s'.log[|s.log|..] :: ReasonFits(e) && !e.from.OperatorOnly()
  {
    hide Driver.Tick, ReasonFits;
    var steps := TickPath(env, s, waves);
    LogIsHistory(env, s, steps);
    EventsExplained(env, s, steps);
    forall k | 0 <= k < |steps| ensures !steps[k].Operate? {
      assert StepWithin(steps[k], Union(waves), true);
    }
  }
}
