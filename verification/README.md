# Shigoto scheduler: model and proofs

Shigoto drives jobs through a phase machine. A *tick* layers the dependency graph into
waves and runs three passes over each wave: a fuelled drive of every job (gates, backoff,
budget), the execution of everything Running, and a fuelled drain that decides what happens
to failures. This project models that driver together with the cores it composes, and proves
what holds of every tick, of every run of ticks interleaved with operator commands and
registrations, and of a restart from a snapshot.

`dafny verify dfyconfig.toml` checks the whole project.

## How the model is built

| module | what it holds |
|---|---|
| `Types`, `Retry`, `Gate`, `Budget` | phase table and signals; retry policies and delay arithmetic; gate reduction; the `BudgetTree` object |
| `Ordering`, `Rank`, `Fairness`, `Starvation` | key order and sorting; ranking and picking; the bound on waiting; runs that starve, and the exact condition |
| `Layering`, `Dag` | walks, depths, exact layering; the `Dag` object |
| `Driver`, `Verdicts` | one tick as a function on the scheduler's whole state; the verdict of a job's gates, said of the gates themselves |
| `Machine` | the tick as a thread, one step per lock taken, with operator moves and registrations between any two steps |
| `Interference`, `Accounting`, `LogHistory`, `Dependencies`, `Attempts`, `BackoffRuns`, `FailureRecords` | properties of every machine run |
| `Cutoff`, `Resets`, `Singles` | how far up dependency safety reaches; what an operator reset is worth; single jobs driven by hand for the witnesses |
| `Frames`, `Fuel`, `TickOnce`, `Convergence`, `BoundedConvergence` | properties of ticks and of runs of ticks |
| `Restart`, `Snapshot` | projection and restore; counts, summary, failure set |
| `Fsm` | the convergence harness for user-defined machines |
| `Scheduler` | the `InProcessScheduler` object; every method is proved to do what `Driver` and `Restart` say |

The chain from code to theorem is: each method of `InProcessScheduler` equals a function of
`Driver` on the object's `View()`; `Machine.TickPath` shows that a driver tick is a run of
the machine without outside steps; the safety theorems are invariants of all machine runs,
so they hold of ticks, between ticks, and at every lock release within a tick.

What the code reads from outside is an oracle that may answer differently at every reading:
the clock, the kind gates, the result of each execution (completed, errored, panicked) and
the order in which results arrive. `State.now` counts readings. An unregistered job always
errors; a panicked one delivers no result, stays Running and keeps its slot.

## Where the code and its documentation differ

- The within-wave sort is documented as deterministic. `stable_job_key` does not separate all
  ids (`Dag.StableKeysCollide`), and the buckets are filled from a hash map. The order is
  determined exactly when no two nodes of equal depth share a key (`Dag.OrderDeterminedIff`).
- An operator reset is described as a retry from scratch. It does not clear the attempt
  counter: no retry is ever scheduled after a reset, and each reset is used up by exactly one
  failure (`Resets.ResetBuysOne`). It is as good as a fresh start exactly for policies that
  allow a single failure (`Resets.ResetIsFreshIff`); `Resets.ResetIsNoFreshStart` is a run for
  every larger allowance.
- A retry deadline is `now + delay` in 64-bit arithmetic. It is the intended moment exactly
  when the sum fits an i64 (`Retry.DeadlineExactIff`). Otherwise a release build wraps around
  and the deadline lies in the past, so nothing is waited for (`Retry.OverflowWaitsNothing`);
  a build with overflow checks panics at that addition, which is not modelled.
- The fairness term is said to guarantee that a unit eventually wins. It does exactly when no
  competitor can saturate within the turn it has to wait itself: with n units, s slots, weight
  w and other urgency up to b, when (n - 1) / s is 0 or b + ((n - 1) / s - 1) * w < 2^64 - 1
  (`Starvation.StarvationFreeIff`). The waiting unit may saturate without harm.
- `restore_state` does not restore budget counters: after a restore the books balance exactly
  when the snapshot holds no Running job (`Restart.RestoredBooksIff`).
- Operator commands for WaitingForOperator exist, but nothing puts a job there: it is
  reachable only through a restored snapshot (`LogHistory.WaitingUnreachable`).
- A gate that skips a job releases its dependants while ancestors are still open
  (`Cutoff.SkipReleases`, and a whole tick in `Cutoff.SkipCutsOffAncestors`). Where no gate
  skips, all ancestors of a job past its gates are over (`Cutoff.AllAncestorsOver`).
- A failure result that is rejected has raised the attempt counter all the same
  (`Scheduler.InProcessScheduler.ApplyExecutionResult`); a tick never meets one.

## Model

| member | source | states |
|---|---|---|
| Scheduler.InProcessScheduler.Tick | shigoto-scheduler/src/lib.rs:300-415 | A tick fails only with a cycle error naming a node on a cycle, before touching any job; otherwise the graph is acyclic, the waves are its exact layering, the state is the driver's tick over them, the receipt lists exactly the events emitted, each with the reason its move demands, the counts by phase and the jobs in need of an operator with their phases; slot accounting is kept, no node is left Failed, and no job was executed twice |
| Scheduler.InProcessScheduler.RunWaves | shigoto-scheduler/src/lib.rs:342-396 | The loop over waves is the driver's fold over waves |
| Scheduler.InProcessScheduler.RunWave | shigoto-scheduler/src/lib.rs:342-396 | Drive, execute, drain, in that order, on the whole state |
| Scheduler.InProcessScheduler.DrivePass | shigoto-scheduler/src/lib.rs:344-361 | Pass 1 seeds and drives every job of the wave with six units of fuel |
| Scheduler.InProcessScheduler.ExecutePass | shigoto-scheduler/src/lib.rs:363-379 | Pass 2 executes exactly the Running jobs of the wave, and every delivered result finds its job Running, so its dispatch is never rejected |
| Scheduler.InProcessScheduler.DrainPass | shigoto-scheduler/src/lib.rs:381-395 | Pass 3 drains every job with three units of fuel |
| Scheduler.InProcessScheduler.DriveJob | shigoto-scheduler/src/lib.rs:349-361 | The fuelled loop stops at Running, on no progress or out of fuel |
| Scheduler.InProcessScheduler.AdvanceOnce | shigoto-scheduler/src/lib.rs:427-504 | One step from the phase seen: new state, progress flag, and never an illegal transition |
| Scheduler.InProcessScheduler.Dispatch | shigoto-scheduler/src/lib.rs:570-596 | A legal signal moves the phase and logs one event at the clock's reading, from the old phase to the new one and with the signal's reason; a rejected one changes nothing and is reported |
| Scheduler.InProcessScheduler.DecideRetry | shigoto-scheduler/src/lib.rs:509-529 | The policy's verdict on counter and history; the clock is read only for a retry, whose deadline is wrapped to 64 bits |
| Scheduler.InProcessScheduler.EvaluateGates | shigoto-scheduler/src/lib.rs:535-555 | The implicit upstream gate and the kind's gates, reduced |
| Verdicts.VerdictMeaning | shigoto-scheduler/src/lib.rs:550-554 | Every gate of the kind is asked: skipped exactly when some gate skips; otherwise waiting exactly when a gate waits or a direct predecessor is not over; passed on a claim exactly when some gate passes or there is a predecessor; vacuous where there is neither |
| Verdicts.VerdictReason | shigoto-gate/src/lib.rs:132-132 | The reason of a skip is that of the first gate that skips |
| Verdicts.VerdictCount | shigoto-gate/src/lib.rs:134-146 | A passing verdict counts the gates that pass, and one for the predecessors where there are any |
| Scheduler.InProcessScheduler.ExecuteConcurrent | shigoto-scheduler/src/lib.rs:608-649 | Starts all ids, returns results in arrival order, an error for an unregistered job, nothing for a panicked one |
| Scheduler.InProcessScheduler.ApplyExecutionResult | shigoto-scheduler/src/lib.rs:655-708 | Accepted exactly for a Running job; success forgets counter and history, failure counts and records it, both give the slot back; a rejected failure has been counted, a rejected success changes nothing |
| Scheduler.InProcessScheduler.CountFailure | shigoto-scheduler/src/lib.rs:672-698 | Counter plus one, one more record, the last sixteen kept |
| Scheduler.InProcessScheduler.OperatorTransition | shigoto-scheduler/src/lib.rs:223-256 | Ok exactly for the legal operator cells, with the operator's reason in the log; otherwise nothing changes |
| Scheduler.InProcessScheduler.RegisterJob | shigoto-scheduler/src/lib.rs:204-209 | Seeds an absent job as Pending, keeps the phase of a known one |
| Scheduler.InProcessScheduler.RegisterGate | shigoto-scheduler/src/lib.rs:168-171 | Every job of the kind is asked one more gate, after its old ones; the gates of other kinds and the rest of the configuration stay |
| Scheduler.InProcessScheduler.RegisterRetryPolicy | shigoto-scheduler/src/lib.rs:177-180 | Every job of the kind is decided by the policy; other kinds and the rest of the configuration stay |
| Scheduler.InProcessScheduler.SnapshotState | shigoto-scheduler/src/lib.rs:264-267 | Every known job exactly once, in an arbitrary order, with its stored state |
| Scheduler.InProcessScheduler.RestoreState | shigoto-scheduler/src/lib.rs:284-295 | Overlays phases, non-zero counters and non-empty histories; budget untouched |
| Scheduler.DeliveredIsApplied | shigoto-scheduler/src/lib.rs:372-379 | Collecting results and then applying them is one fold over the arrivals |
| Scheduler.TickGuarantees | shigoto-scheduler/src/lib.rs:300-415 | Every tick keeps the slot accounting, leaves no node Failed and executes no job twice |
| Machine.TickPath | shigoto-scheduler/src/lib.rs:342-395 | Every driver tick is a run of the lock-by-lock machine without outside steps, naming only the jobs of its waves and starting at most one batch per wave, in wave order |
| Machine.ActLegal | shigoto-scheduler/src/lib.rs:427-504 | The signal chosen for the phase a job is in is never rejected |
| Machine.ApplyResultFrame | shigoto-scheduler/src/lib.rs:655-708 | A result moves only its own job: a success removes its counter and its history, a failure raises the counter and adds a record, both release one slot |
| Interference.NeverAborts | shigoto-scheduler/src/lib.rs:427-504 | With operator moves and registrations at any lock release, no dispatch of a tick is ever an illegal transition |
| Interference.OutsideMoves | shigoto-scheduler/src/lib.rs:223-256 | The rely condition: an outside step moves only a Deadlettered or WaitingForOperator job |
| Interference.RemembersKept | shigoto-scheduler/src/lib.rs:342-395 | What the tick thread remembers between two locks stays true under every step |
| Interference.StepEffect | shigoto-scheduler/src/lib.rs:570-596 | A step either moves one job along a legal cell to a different phase and logs exactly that, the tick's with the reason the move demands and the operator's with the operator's own, or moves no job and logs nothing |
| Interference.DispatchReason | shigoto-scheduler/src/lib.rs:751-771 | The event of a dispatch by the driver carries the reason of its move: allocated into Running, ok into Succeeded, the failure text into Failed, scheduled into Retrying, exhausted into Deadlettered, backoff over into Pending, gate evaluation otherwise |
| Interference.FireEffect | shigoto-scheduler/src/lib.rs:570-596 | The tick's dispatch moves its own job, out of a phase no operator holds, and logs it |
| Accounting.RunningWithinCaps | shigoto-scheduler/src/lib.rs:474-485 | In every reachable state, panics and operator moves included, the Running jobs respect every global, kind and scope cap; between ticks the counters equal the Running jobs in each dimension; a release never meets a zero counter |
| Accounting.HeldStep | shigoto-scheduler/src/lib.rs:655-708 | Slots change only by one reservation that was not refused or one release of a held slot |
| Accounting.TickSettled | shigoto-scheduler/src/lib.rs:300-396 | A whole tick keeps counters equal to Running jobs |
| Budget.BudgetTree.TryAllocate | shigoto-budget/src/lib.rs:72-98 | Reserves in all three dimensions or changes nothing; names the first exhausted dimension in the order global, kind, scope |
| Budget.BudgetTree.Release | shigoto-budget/src/lib.rs:101-111 | Gives back in all three dimensions, saturating at zero |
| Budget.RefusalMeaning | shigoto-budget/src/lib.rs:72-98 | An allocation is refused exactly when taking the slot would break some cap |
| Budget.RefusalNames | shigoto-budget/src/lib.rs:74-91 | The refusal names the first exhausted dimension of global, kind and scope, and nothing is refused exactly when none is |
| Budget.TakeThenGiveBack | shigoto-budget/src/lib.rs:101-111 | Release undoes allocation |
| Budget.GiveBackCounts | shigoto-budget/src/lib.rs:101-111 | A release lowers the three counters of the job by one, down to zero, and no other |
| LogHistory.LogIsHistory | shigoto-scheduler/src/lib.rs:570-596 | Over any interleaving, replaying the new events over the old phases gives the new phases; every event is a legal cell and never a self-loop |
| LogHistory.EventsExplained | shigoto-scheduler/src/lib.rs:223-256 | Over any interleaving every new event is the driver's, with the reason of its move, or one of the operator's steps, with that step's job, target and reason |
| LogHistory.EventsChain | shigoto-scheduler/src/lib.rs:570-596 | Consecutive events of one job chain from `to` to the next `from` |
| LogHistory.WaitingUnreachable | shigoto-types/src/lib.rs:287-356 | No run of ticks, operator moves and registrations puts a job in WaitingForOperator |
| Dependencies.DependencySafety | shigoto-scheduler/src/lib.rs:443-457 | Over every run without operator moves, a job in Ready, Running, Failed, Retrying, Succeeded or Deadlettered has all its direct predecessors terminal |
| Dependencies.AncestorSafety | shigoto-gate/src/lib.rs:179-200 | The same for an ancestor along a chain on which nothing between was skipped |
| Cutoff.AllAncestorsOver | shigoto-gate/src/lib.rs:179-200 | Where no kind gate ever skips, every ancestor of a job past its gates is terminal, in every run without operator moves |
| Cutoff.UnskippedKept | shigoto-gate/src/lib.rs:127-148 | Without a skipping gate no step but an operator's makes a job Skipped |
| Cutoff.SkipReleases | shigoto-gate/src/lib.rs:127-148 | For any graph, state and chain top, middle, bottom: a gate that skips the middle job while the top one is open lets the bottom one past its gates with the top one still open |
| Dependencies.TerminalStays | shigoto-types/src/lib.rs:287-356 | Without an operator, a terminal job never moves again |
| Cutoff.SkipCutsOffAncestors | shigoto-gate/src/lib.rs:127-148 | A first tick after which the bottom job has been executed and Succeeded while the top job is Retrying |
| Attempts.CounterIsLog | shigoto-scheduler/src/lib.rs:661-706 | For every policy and interleaving, between ticks: the counter is the number of logged failures, or zero after a success, and the history is the last min(16, counter) failures, numbered consecutively up to the counter, so empty after a success |
| Attempts.DecidedByCounter | shigoto-scheduler/src/lib.rs:517-517 | A job without a counter is decided as after its first failure, one with a counter by that counter |
| FailureRecords.HistoryIsLog | shigoto-scheduler/src/lib.rs:672-698 | With a monotone clock, each record belongs to the logged failure of its number, carries the failure text and was stamped between the job's previous event and that failure |
| Attempts.RetryBudget | shigoto-scheduler/src/lib.rs:509-529 | Failed executions never exceed max(1, attempts) plus the operator resets |
| Resets.ResetBuysOne | shigoto-scheduler/src/lib.rs:509-529 | Exact counts under a bounded policy: a Deadlettered job has failed exactly its allowance plus its resets, its counter is at least the allowance, no retry is scheduled after a reset, and from a reset to the next Deadlettered there is exactly one failure |
| Resets.ResetIsFreshIff | shigoto-scheduler/src/lib.rs:509-529 | After a reset a failure is decided as it would be from scratch exactly when the policy allows a single failure |
| Resets.ResetIsNoFreshStart | shigoto-types/src/lib.rs:350-351 | For every allowance n of two or more: a run in which a failing job is Deadlettered after n ticks, and after an operator reset by the first one |
| BackoffRuns.BackoffHonoured | shigoto-scheduler/src/lib.rs:461-469 | With a monotone clock, a retry scheduled after a job's n-th failure was decided between that failure and the retry event; every later event of the job is stamped at or past the deadline; the deadline is decision plus the policy's delay for n failures exactly when that sum fits an i64, and then the job waits at least that delay after the failure itself |
| BackoffRuns.NoEarlyExecution | shigoto-scheduler/src/lib.rs:461-469 | No job is Running while a deadline of its log is still ahead |
| BackoffRuns.DelayDecided | shigoto-retry/src/lib.rs:56-83 | A retry happens only below the allowance, with the fixed delay or the exact capped exponential |
| Fuel.SixIsEnough | shigoto-scheduler/src/lib.rs:349-361 | Six steps reach exactly what the unbounded loop reaches, for every job in every state |
| Fuel.ProgressDescends | shigoto-scheduler/src/lib.rs:427-504 | Every step that makes progress strictly lowers the phase measure |
| Fuel.TickLeavesNoneFailed | shigoto-scheduler/src/lib.rs:381-395 | No node is left Failed by a tick |
| Fuel.DrainNeverRestarts | shigoto-scheduler/src/lib.rs:381-395 | The drain's three steps never bring a failed job back to Running |
| TickOnce.TickExecutesOnce | shigoto-scheduler/src/lib.rs:342-395 | The executions of one undisturbed tick are distinct nodes of the graph |
| TickOnce.ExecutesOnceInterleaved | shigoto-scheduler/src/lib.rs:342-395 | A thread that starts at most one batch per wave, of that wave's jobs, executes no job twice, whatever operators and registrations do in between |
| TickOnce.RunWaveRuns | shigoto-scheduler/src/lib.rs:363-395 | A wave executes exactly what pass 1 left Running; a job that pass 3 makes Running waits for the next tick |
| TickOnce.TickIsMap | shigoto-scheduler/src/lib.rs:342-396 | Without kind gates, caps, retries and panics, one tick from fresh leaves every node Succeeded or Deadlettered by its own result alone, for any acyclic graph |
| BoundedConvergence.BoundedConvergence | shigoto-scheduler/src/lib.rs:300-396 | From fresh, with every cap at least one, bounded policies, no waiting gate, no panic and punctual ticks, every node is terminal after as many ticks as the allowances max(1, attempts) add up to |
| BoundedConvergence.TickLowersTotal | shigoto-scheduler/src/lib.rs:300-396 | Under those assumptions each tick strictly lowers the sum of allowance minus attempts over the open nodes, or all are over |
| Convergence.DrivePlaces | shigoto-scheduler/src/lib.rs:349-361 | Where no gate waits, a job with its upstreams over and its deadline past ends pass 1 Skipped, Running, or Ready and refused a slot |
| Restart.RestartTransparency | shigoto-scheduler/src/store.rs:148-163 | For every state reachable from fresh, between ticks and without a Running job, restoring the projection into a new process gives the very same state, however registrations are split before and after |
| Restart.RestoreIsIdentity | shigoto-scheduler/src/lib.rs:284-295 | Restore after project is the identity on any tidy state without slots out |
| Restart.RestoreCommutes | shigoto-scheduler/src/lib.rs:269-283 | Restoring and registering commute, for any snapshot and job |
| Restart.RestoredBooksIff | shigoto-scheduler/src/lib.rs:284-295 | After a restore the budget counters are right exactly when the snapshot holds no Running job |
| Restart.TidyKept | shigoto-scheduler/src/lib.rs:655-708 | Only known jobs are registered, counted or remembered, in every reachable state |
| Types.EntryCells | shigoto-types/src/lib.rs:287-356 | The cells that lead into each phase, and the only one out of a terminal phase |
| Types.LegalCells | shigoto-types/src/lib.rs:287-356 | Exactly which cells are legal, and that every other one is rejected with its phase and signal |
| Types.CellTargets | shigoto-types/src/lib.rs:287-356 | Where gates lead, with the reason of a skip; what a failure and a retry carry |
| Types.OperatorCells | shigoto-types/src/lib.rs:343-351 | The operator's three commands, both directions |
| Types.VacuousMovesLikeAllPassed | shigoto-types/src/lib.rs:290-335 | A vacuous cohort drives the same transitions as a passed one |
| Types.ReasonTells | shigoto-scheduler/src/lib.rs:751-771 | The reason in the log tells the move: allocated means Running, retries exhausted means Deadlettered, and so on, both ways |
| Gate.Reduce | shigoto-gate/src/lib.rs:127-148 | The loop computes the aggregate: first skip, else any wait, else the count of passes |
| Gate.AggregateMeaning | shigoto-gate/src/lib.rs:127-148 | Worst outcome wins, a skip with the reason of the first one; all-passed needs a pass and counts the passes; vacuous means nothing was claimed; each both ways |
| Gate.FirstSkipAt | shigoto-gate/src/lib.rs:127-148 | The reason reported is that of the first skip |
| Gate.AllUpstreamsTerminal | shigoto-gate/src/lib.rs:179-200 | No claim exactly without predecessors, waiting exactly when one of them is not Succeeded, Skipped or Deadlettered, never a skip |
| Retry.RetryOnlyBelowAllowance | shigoto-retry/src/lib.rs:40-85 | When a bounded policy retries and when it gives up |
| Retry.DeclarativeStops | shigoto-retry/src/lib.rs:50-54 | A latest record that is declarative stops every policy, custom ones included; a custom decider is otherwise asked as it is |
| Retry.BackoffExact | shigoto-retry/src/lib.rs:66-82 | The saturating 64-bit delay is min(max, base * 2^min(attempt-1, 30)) over the unbounded integers |
| Retry.BackoffDoubles | shigoto-retry/src/lib.rs:66-82 | The first delay is the base, each further one twice the one before up to the cap, and constant from the 31st on |
| Retry.BackoffMonotone | shigoto-retry/src/lib.rs:66-82 | The delay never shrinks from one attempt to a later one and never exceeds the cap |
| Retry.DeadlineExactIff | shigoto-scheduler/src/lib.rs:509-529 | The wrapped deadline is the exact sum, or at least not early, exactly when the sum fits an i64 |
| Retry.OverflowWaitsNothing | shigoto-scheduler/src/lib.rs:525-526 | Where the sum does not fit, the deadline lies in the past |
| Retry.LongestDelayWaitsNothing | shigoto-scheduler/src/lib.rs:525-526 | A fixed delay of 2^63 milliseconds is accepted and retries at once |
| Dag.Dag.Waves | shigoto-dag/src/lib.rs:152-191 | Exact layering of the nodes, or of those of them in `affected`, each wave in key order, or a cycle error exactly for a cyclic graph |
| Dag.Dag.Depths | shigoto-dag/src/lib.rs:158-178 | Along any topological order, each scoped node's number is the length of the longest scoped walk ending there |
| Dag.Dag.Validate | shigoto-dag/src/lib.rs:118-133 | Ok exactly when every node is declared and no node is on a cycle; undeclared nodes are reported first |
| Dag.Dag.AddEdge | shigoto-dag/src/lib.rs:98-104 | Adds both end points and the edge, once, and declares neither |
| Dag.Dag.EnsureNode | shigoto-dag/src/lib.rs:72-76 | Adds and declares the node, keeping the edges |
| Dag.Dag.NodeIndex | shigoto-dag/src/lib.rs:80-87 | Interns without declaring; existing indices stay |
| Dag.Dag.Predecessors | shigoto-dag/src/lib.rs:214-222 | Exactly the direct predecessors, each once, none for an unknown job |
| Dag.Toposort | shigoto-dag/src/lib.rs:139-143 | A topological permutation of the nodes, or a node on a cycle |
| Dag.OrderDeterminedIff | shigoto-dag/src/lib.rs:180-191 | The waves, order included, are determined by graph and scope exactly when no two scoped nodes of equal depth share a key |
| Dag.StableKeysCollide | shigoto-dag/src/lib.rs:234-252 | Two different jobs with the same key |
| Dag.StableKeySpelt | shigoto-dag/src/lib.rs:234-252 | How the key of every kind of scope and subject is spelt |
| Ordering.LexMeaning | shigoto-dag/src/lib.rs:187-190 | Keys are compared as in a dictionary: the smaller character at the first difference, else the shorter string |
| Layering.LayeringUnique | shigoto-dag/src/lib.rs:152-191 | The wave sets do not depend on the topological order used |
| Layering.LayeredFacts | shigoto-dag/src/lib.rs:146-152 | Waves are disjoint, cover the scope, and every scoped edge leads to a strictly later wave |
| Layering.LayeredIsStratified | shigoto-scheduler/src/lib.rs:342-348 | The layering gives the driver what it relies on |
| Layering.TopologicalMeansAcyclic | shigoto-dag/src/lib.rs:139-143 | A graph with a topological order has no node on a cycle |
| Fsm.ReachesGoodTerminal | shigoto-fsm/src/lib.rs:252-265 | The search terminates and answers true exactly when some path from the start meets a good resting state |
| Fsm.AssertConvergentFsm | shigoto-fsm/src/lib.rs:275-300 | Ok exactly for a non-empty, closed machine with sound terminals from every state of which a good resting state is reachable; otherwise every defect of every check, counted, or the one emptiness defect |
| Fsm.NoDefectsIff | shigoto-fsm/src/lib.rs:275-300 | The four checks together find nothing exactly for such a machine |
| Fsm.CheckGraphClosed | shigoto-fsm/src/lib.rs:174-188 | Each edge that leaves the enumeration is reported with both its states, as often as its source is enumerated and the edge declared, and nothing else is; in order |
| Fsm.CheckTerminalsSound | shigoto-fsm/src/lib.rs:192-215 | Each wrong terminal flag and each bad terminal is reported with its state, as often as it is enumerated, and nothing else is; in order |
| Fsm.CheckNoTraps | shigoto-fsm/src/lib.rs:218-229 | Each non-terminal without successors is reported with its state, as often as it is enumerated, and nothing else is; in order |
| Fsm.CheckAllConverge | shigoto-fsm/src/lib.rs:236-247 | Each state from which no good resting state is reachable is reported, as often as it is enumerated, and nothing else is; in order |
| Rank.Urgency | shigoto-rank/src/lib.rs:108-116 | The chain of saturating steps equals min(2^64-1, staleness, behind-target, drift and fairness terms added exactly) |
| Rank.Rank | shigoto-rank/src/lib.rs:134-138 | Every eligible unit as often as it is pending, and no other, in key order |
| Rank.RankingReads | shigoto-rank/src/lib.rs:121-138 | In a ranking no unit of a later class stands before one of an earlier class (Critical, High, Normal, Low); within a class the saturated sum never rises; among equals the ids ascend |
| Rank.RankingIsCanonical | shigoto-rank/src/lib.rs:130-138 | With unique ids the ranking is the same list for every permutation of the input |
| Rank.Pick | shigoto-rank/src/lib.rs:144-153 | A prefix of a ranking, as long as the slots allow |
| Rank.PickIsOptimal | shigoto-rank/src/lib.rs:144-153 | As many as slots and eligible units allow, and none passed over precedes one picked |
| Rank.PickByClass | shigoto-rank/src/lib.rs:144-153 | No unit of an earlier class is passed over for one of a later class |
| Fairness.NoStarvation | shigoto-rank/src/lib.rs:97-153 | With 64-bit deficits counting rounds passed over from any start, at least one slot and a weight of at least one, each of n units is picked within b/w + (n-1)/s + 1 rounds if no competitor can saturate within its turn |
| Starvation.NeverPicked | shigoto-rank/src/lib.rs:106-153 | In every run from zero deficits in which all others have no less other urgency, smaller ids and saturate within their turn, the waiting unit is never picked, however long the run |
| Starvation.StarvingRun | shigoto-rank/src/lib.rs:106-153 | Where a competitor can saturate within its turn, there is such a run of every length |
| Starvation.StarvationFreeIff | shigoto-rank/src/lib.rs:97-153 | Some bound on the wait holds for all fair runs exactly when no competitor can saturate within its turn |
| Snapshot.PhaseCounts | shigoto-types/src/lib.rs:640-660 | The exact number of jobs in each phase, and no entry for an empty one |
| Snapshot.PhaseNamesTell | shigoto-types/src/lib.rs:644-655 | Each name stands for one phase and no other |
| Snapshot.Summary | shigoto-types/src/lib.rs:678-698 | Each field is the number of jobs in its phase, pending those of three; every job is counted in exactly one field; idle exactly when nothing runs or waits to run |
| Snapshot.FailureSet | shigoto-types/src/lib.rs:624-636 | Exactly the Failed, Retrying and Deadlettered jobs; its size is the sum of those three counts |
| Snapshot.CollectUnhealed | shigoto-scheduler/src/lib.rs:721-737 | Exactly the Deadlettered and WaitingForOperator jobs, once each, in key order, with their phases |
| Snapshot.UnhealedKeySpelt | shigoto-scheduler/src/lib.rs:739-749 | How the key of every kind of subject is spelt |

## Left out

- Integer width of counters: attempt counters, budget counters and phase counts are unbounded; the u32 limits of the source (saturating global counter, plain increments elsewhere) are not modelled.
- Budget.BudgetTree.TryAllocate: does not model the u32 saturation of the global counter or the overflow of the per-kind and per-scope counters.
- Float jitter: `jitter_ms` is an arbitrary function of delay and attempt; with jitter the cap is not a bound, and no such bound is claimed.
- `RetryPolicy::Custom`: an arbitrary decider; results about allowances exclude it.
- Overflow checks: the deadline addition wraps, as in a release build.
- Async runtime, `JoinSet`, locks: replaced by atomic steps, one per lock.
- Timeouts: a timed-out execution is an errored one, part of the result oracle.
- Operator writes: `operator_transition` reads and writes under separate locks; here it is one step.
- Interference.NeverAborts: covers operator commands that are atomic, one tick at a time, and a fixed graph, gate and policy set; `install_budget`, `register_gate`, `register_retry_policy` and `restore_state` do not interleave with a tick.
- Scheduler.InProcessScheduler.Tick: nothing interleaves with the object's own tick, so its receipt is the tail of the event stream; interleavings are covered by `Machine`.
- `install_budget`: the budget is given to the constructor, with its counters at whatever they are.
- Emitters, sinks, the `tool` tag and wall-clock types: the event stream is a field, timestamps are integers in milliseconds.
- File and JSON persistence (`load`, `save`): only the projection and the overlay are modelled.
- petgraph: only the contract of its topological sort is relied on; the body given here is Kahn's algorithm.
- Dag.Dag.Validate: which undeclared node or which cycle node is named is left open; the source picks the first by its debug text or the one the library returns.
- Ids: paths are strings, and string order is by character.
- `age_seconds` in the unhealed list is always 0 and is dropped.
- Fsm.AssertConvergentFsm: a defect is its kind and the states its message names, not the message text; a state type is finite, which appears as a ghost universe.
- Schedulable accessors are a record; eligibility is a predicate on units at a fixed moment; drift is as wide as the other terms.
- `max_failures_per_minute` and `queue_depth`: declared in the source but never consulted.
- `OperatorApproved` and other ready-made gates: any gate is a function of job, phases and moment.
- chain, classify, policy, decision, watch, failure, converge, testing, and the emit and test crates: folds, string matching, hashing and helpers.
