/** What an operator reset is worth: exactly one more execution, since it does not
    clear the attempt counter. */
module Resets {
  import opened Types
  import opened Retry
  import opened Budget
  import opened Driver
  import opened Machine
  import opened Interference
  import opened LogHistory
  import opened Attempts
  import opened Frames
  import opened Singles

  // ----- The exact count -----

  predicate AllTransient(s: State, id: JobId) {
    forall record | record in s.HistoryOf(id) :: record.kind.Transient?
  }

  /** A Deadlettered job has used up its allowance and every reset, one failure each;
      a reset job that is under way has one failure still to come. */
  predicate Spent(env: Env, m: Mach, id: JobId)
    requires !env.PolicyOf(id).Custom?
  {
    var failures, resets, phase := Failures(m.s.log, id), Resets(m.s.log, id), m.s.PhaseOf(id);
    var due := env.PolicyOf(id).Allowance() + resets;
    && AllTransient(m.s, id)
    && (phase.Deadlettered? ==> failures == due)
    && (resets > 0 ==> failures == due - if JustFailed(phase) then 0 else 1)
    && (m.pc.Armed? && m.pc.id == id && m.pc.signal == RetryDecide(Deadletter) ==> failures == due)
  }

  /** What the log says of the job's resets: each came when the allowance and all
      resets before it were used up, and no retry comes after one. */
  predicate ResetsLogged(env: Env, log: seq<TransitionEvent>, id: JobId)
    requires !env.PolicyOf(id).Custom?
  {
    forall i | 0 <= i < |log| ::
      && (IsReset(log[i], id) ==> Failures(log[..i], id) == env.PolicyOf(id).Allowance() + Resets(log[..i], id))
      && (log[i].id == id && log[i].to.Retrying? ==> Resets(log[..i], id) == 0)
  }

  lemma TransientKept(env: Env, m: Mach, step: Step, id: JobId)
    requires Next(env, m, step).Some? && AllTransient(m.s, id)
    ensures AllTransient(Next(env, m, step).value.s, id)
  {
    hide Act, Dispatch;
    MemoryStep(env, m, step, id);
  }

  /** A job is Deadlettered by the driver only when the allowance is used up. */
  lemma DecisionSpent(env: Env, m: Mach, id: JobId)
    requires !env.PolicyOf(id).Custom? && m.s.PhaseOf(id).Failed? && !m.pc.Settling?
    requires CounterTrue(m, id) && WithinAllowance(env, m, id) && Spent(env, m, id)
    ensures var outcome := DecideRetry(env, m.s, id).1;
            && (outcome.Deadletter? ==> Failures(m.s.log, id) == env.PolicyOf(id).Allowance() + Resets(m.s.log, id))
            && (outcome.Retry? ==> Resets(m.s.log, id) == 0)
  {
    RetryOnlyBelowAllowance(env.PolicyOf(id), m.s.AttemptsOf(id), m.s.HistoryOf(id));
  }

  /** The arithmetic of one move of the job. */
  lemma SpentMove(from: JobPhase, to: JobPhase, allowance: nat, failures: nat, resets: nat)
    requires from.Deadlettered? || to.Deadlettered? ==> failures == allowance + resets
    requires resets > 0 ==> failures == allowance + resets - if JustFailed(from) then 0 else 1
    requires to.Retrying? ==> failures < allowance + resets
    requires to.Failed? ==> !JustFailed(from)
    requires from.Failed? ==> to.Deadlettered? || to.Retrying?
    requires from.Deadlettered? ==> to.Pending?
    ensures var failures' := failures + if to.Failed? then 1 else 0;
            var resets' := resets + if from.Deadlettered? then 1 else 0;
            && (to.Deadlettered? ==> failures' == allowance + resets')
            && (resets' > 0 ==> failures' == allowance + resets' - if JustFailed(to) then 0 else 1)
  {
  }

  lemma SpentLogged(env: Env, m: Mach, step: Step, id: JobId)
    requires Remembers(m) && Next(env, m, step).Some? && (step.Fire? || step.Operate?) && !env.PolicyOf(id).Custom?
    requires WithinAllowance(env, m, id) && Spent(env, m, id)
    ensures var m' := Next(env, m, step).value;
            AllTransient(m'.s, id) ==> Spent(env, m', id)
  {
    EventShape(env, m, step);
    var m' := Next(env, m, step).value;
    var e := m'.s.log[|m.s.log|];
    assert m'.s.log == m.s.log + [e];
    hide Next, Remembers, AllTransient, Failures, Resets;
    CountsExtend(m.s.log, e, id);
    if e.id == id {
      SpentMove(e.from, e.to, env.PolicyOf(id).Allowance(), Failures(m.s.log, id), Resets(m.s.log, id));
    }
  }

  lemma ResetLogged(env: Env, m: Mach, step: Step, id: JobId)
    requires Remembers(m) && Next(env, m, step).Some? && (step.Fire? || step.Operate?) && !env.PolicyOf(id).Custom?
    requires WithinAllowance(env, m, id) && Spent(env, m, id) && ResetsLogged(env, m.s.log, id)
    ensures ResetsLogged(env, Next(env, m, step).value.s.log, id)
  {
    EventShape(env, m, step);
    var log, log' := m.s.log, Next(env, m, step).value.s.log;
    hide Next, Remembers, AllTransient, Failures, Resets;
    forall i | 0 <= i < |log'|
      ensures IsReset(log'[i], id) ==> Failures(log'[..i], id) == env.PolicyOf(id).Allowance() + Resets(log'[..i], id)
      ensures log'[i].id == id && log'[i].to.Retrying? ==> Resets(log'[..i], id) == 0
    {
      if i < |log| {
        assert log'[i] == log[i] && log'[..i] == log[..i];
      }
    }
  }

  lemma SpentKept(env: Env, m: Mach, step: Step, id: JobId)
    requires Remembers(m) && Next(env, m, step).Some? && !env.PolicyOf(id).Custom?
    requires CounterTrue(m, id) && WithinAllowance(env, m, id) && Spent(env, m, id) && ResetsLogged(env, m.s.log, id)
    ensures Spent(env, Next(env, m, step).value, id) && ResetsLogged(env, Next(env, m, step).value.s.log, id)
  {
    hide CounterTrue, WithinAllowance, AllTransient, ResetsLogged;
    TransientKept(env, m, step, id);
    if step.Fire? || step.Operate? {
      SpentLogged(env, m, step, id);
      ResetLogged(env, m, step, id);
    } else {
      StepEffect(env, m, step);
      if step.Choose? && m.pc.id == id && m.pc.from.Failed? {
        DecisionSpent(env, m, id);
      }
    }
  }

  lemma {:induction false} RunSpent(env: Env, m: Mach, steps: seq<Step>, id: JobId)
    requires Remembers(m) && Run(env, m, steps).Some? && !env.PolicyOf(id).Custom?
    requires CounterTrue(m, id) && WithinAllowance(env, m, id) && Spent(env, m, id) && ResetsLogged(env, m.s.log, id)
    ensures Spent(env, Run(env, m, steps).value, id) && ResetsLogged(env, Run(env, m, steps).value.s.log, id)
    decreases |steps|
  {
    hide CounterTrue, WithinAllowance, Spent, ResetsLogged, Next, Remembers;
    if steps != [] {
      RememberingStep(env, m, steps);
      CounterKept(env, m, steps[0], id);
      AllowanceKept(env, m, steps[0], id);
      SpentKept(env, m, steps[0], id);
      RunSpent(env, Next(env, m, steps[0]).value, steps[1..], id);
    }
  }

  lemma RunSpentFromFresh(env: Env, s0: State, steps: seq<Step>, id: JobId)
    requires Fresh(s0) && Run(env, Mach(s0, Idle), steps).Some? && !env.PolicyOf(id).Custom?
    ensures var m := Run(env, Mach(s0, Idle), steps).value;
            CounterTrue(m, id) && Spent(env, m, id) && ResetsLogged(env, m.s.log, id)
            && WithinAllowance(env, m, id)
  {
    RunCounter(env, Mach(s0, Idle), steps, id);
    RunSpent(env, Mach(s0, Idle), steps, id);
  }

  /** In every interleaving from a fresh scheduler under a bounded policy: a job is
      Deadlettered after exactly its allowance of failures plus one per reset; no
      retry is ever scheduled after a reset; and the failures between a reset and the
      next time the job is Deadlettered are exactly one. */
  lemma ResetBuysOne(env: Env, s0: State, steps: seq<Step>, id: JobId)
    requires Fresh(s0) && Run(env, Mach(s0, Idle), steps).Some? && !env.PolicyOf(id).Custom?
    ensures var s := Run(env, Mach(s0, Idle), steps).value.s;
            && (s.PhaseOf(id).Deadlettered? ==>
                  && Failures(s.log, id) == env.PolicyOf(id).Allowance() + Resets(s.log, id)
                  && s.AttemptsOf(id) >= env.PolicyOf(id).Allowance())
            && (forall i | 0 <= i < |s.log| && s.log[i].id == id && s.log[i].to.Retrying? ::
                  Resets(s.log[..i], id) == 0)
            && (forall i | 0 <= i < |s.log| && IsReset(s.log[i], id) && Resets(s.log, id) == Resets(s.log[..i], id) + 1 ::
                  s.PhaseOf(id).Deadlettered? ==> Failures(s.log, id) == Failures(s.log[..i], id) + 1)
  {
    RunSpentFromFresh(env, s0, steps, id);
  }

  // ----- When a reset is a fresh start -----

  /** The state a failure would leave if the job's earlier failures were forgotten. */
  function FromScratch(env: Env, s: State, id: JobId): State {
    Book(env, Forget(s, id), id)
  }

  /** After a reset every decision is to give up, where a job that started from scratch
      gives up on its first failure exactly when its allowance is one: so a reset is a
      fresh start exactly for the policies that allow a single failure. */
  lemma ResetIsFreshIff(env: Env, s0: State, steps: seq<Step>, id: JobId)
    requires Fresh(s0) && Run(env, Mach(s0, Idle), steps).Some? && Run(env, Mach(s0, Idle), steps).value.pc.Idle?
    requires !env.PolicyOf(id).Custom?
    requires var s := Run(env, Mach(s0, Idle), steps).value.s;
             s.PhaseOf(id).Failed? && Resets(s.log, id) > 0
    ensures var s := Run(env, Mach(s0, Idle), steps).value.s;
            && DecideRetry(env, s, id).1.Deadletter?
            && (DecideRetry(env, FromScratch(env, s, id), id).1 == DecideRetry(env, s, id).1
                <==> env.PolicyOf(id).Allowance() == 1)
  {
    RunSpentFromFresh(env, s0, steps, id);
    var m := Run(env, Mach(s0, Idle), steps).value;
    DecisionSpent(env, m, id);
    ScratchDecision(env, m.s, id);
  }

  lemma ScratchDecision(env: Env, s: State, id: JobId)
    requires !env.PolicyOf(id).Custom?
    ensures DecideRetry(env, FromScratch(env, s, id), id).1.Deadletter? <==> env.PolicyOf(id).Allowance() == 1
  {
    var scratch := FromScratch(env, s, id);
    RetryOnlyBelowAllowance(env.PolicyOf(id), 1, scratch.HistoryOf(id));
  }

  // ----- A job that always fails -----

  const JOB := JobId(Global, JobKindId("job"), NoSubject)

  const SINGLE := Graph({JOB}, {})

  /** One job without dependencies that always fails, retried at once up to n times. */
  function Failing(n: nat): Env {
    Env(SINGLE, map[], map[JOB.kind := Fixed(n, 0)], Caps(None, map[], map[]),
        moment => 0, (moment, id) => Errored, (moment, ids) => ids)
  }

  const NEWCOMER := State(map[JOB := Pending], map[], map[], {JOB}, NO_SLOTS, [], [], 0)

  function Ticked(n: nat, s: State, count: nat): State {
    if count == 0 then s else Tick(Failing(n), Ticked(n, s, count - 1), [[JOB]])
  }

  function ResetByOperator(n: nat, s: State): State {
    Emit(Failing(n), s, JOB, Pending, OperatorAction("retry from scratch"))
  }

  lemma OneMoreFailure(n: nat, s: State)
    requires s.PhaseOf(JOB).Pending? || s.PhaseOf(JOB).Ready?
    ensures var s' := Tick(Failing(n), s, [[JOB]]);
            && s'.AttemptsOf(JOB) == s.AttemptsOf(JOB) + 1
            && s'.PhaseOf(JOB) == if s.AttemptsOf(JOB) + 1 >= n then Deadlettered else Ready
  {
    hide DriveWave, Execute, DrainWave, Drive;
    var env, s1 := Failing(n), s.(now := s.now + 1);
    assert SINGLE.Predecessors(JOB) == {};
    FailedExecution(env, s1, JOB);
    var s2 := Execute(env, DriveWave(env, s1, [JOB]), [JOB]);
    OneDriven(env, s2, JOB);
    DrainedFailure(env, s2, JOB, n, 0);
    DrainWaveFrame(env, s2, [JOB]);
    assert [[JOB]][1..] == [];
    assert RunWaves(env, RunWave(env, s1, [JOB]), []) == RunWave(env, s1, [JOB]);
  }

  lemma {:induction false} ReadyUntilSpent(n: nat, count: nat)
    requires count <= n
    ensures var s := Ticked(n, NEWCOMER, count);
            && s.AttemptsOf(JOB) == count
            && (count > 0 ==> s.PhaseOf(JOB) == if count == n then Deadlettered else Ready)
    decreases count
  {
    if count > 0 {
      ReadyUntilSpent(n, count - 1);
      OneMoreFailure(n, Ticked(n, NEWCOMER, count - 1));
    }
  }

  /** A fresh start takes n failing ticks to end Deadlettered; after an operator reset,
      which the transition table allows, a single one does. */
  lemma ResetIsNoFreshStart(n: nat)
    requires n >= 2
    ensures Fresh(NEWCOMER) && Stratified(SINGLE, [[JOB]])
    ensures forall count | 0 < count < n :: Ticked(n, NEWCOMER, count).PhaseOf(JOB).Ready?
    ensures var dead := Ticked(n, NEWCOMER, n);
            && dead.PhaseOf(JOB).Deadlettered?
            && Advance(dead.PhaseOf(JOB), OperatorTransition(Pending)) == Ok(Pending)
            && Tick(Failing(n), ResetByOperator(n, dead), [[JOB]]).PhaseOf(JOB).Deadlettered?
  {
    hide Tick;
    forall count | 0 < count < n ensures Ticked(n, NEWCOMER, count).PhaseOf(JOB).Ready? {
      ReadyUntilSpent(n, count);
    }
    ReadyUntilSpent(n, n);
    var dead := Ticked(n, NEWCOMER, n);
    OneMoreFailure(n, ResetByOperator(n, dead));
    assert JOB in [[JOB]][0];
    assert SINGLE.Predecessors(JOB) == {};
  }
}
