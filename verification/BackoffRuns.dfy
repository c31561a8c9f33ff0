/** Backoff over whole runs: after a retried failure, nothing more happens to the
    job before the deadline the retry decision set. */
module BackoffRuns {
  import opened Types
  import opened Retry
  import opened Driver
  import opened Machine
  import opened Interference
  import opened LogHistory
  import opened Attempts

  ghost predicate Monotone(clock: nat -> int) {
    forall i, j | i <= j :: clock(i) <= clock(j)
  }

  /** The last thing the log says of the job is its failure at `k`. */
  predicate LastFailed(log: seq<TransitionEvent>, id: JobId, k: nat) {
    && k < |log| && IsFailure(log[k], id)
    && forall m | k < m < |log| :: log[m].id != id
  }

  /** After the failure at `k`, the last in `log`, the job's policy sets the deadline
      `untilMs` at clock reading `moment`, given the records of its last failures. */
  ghost predicate DecidedAt(env: Env, log: seq<TransitionEvent>, id: JobId, untilMs: int,
                            k: nat, moment: nat, history: seq<FailureRecord>) {
    var n := Failures(log, id);
    var decision := env.PolicyOf(id).Decide(n, history);
    && LastFailed(log, id, k) && log[k].at <= env.clock(moment)
    && n >= 1 && HistoryEndsAt(history, n)
    && decision.RetryAfter? && untilMs == Deadline(env.clock(moment), decision.afterMs)
  }

  ghost predicate Decided(env: Env, log: seq<TransitionEvent>, id: JobId, untilMs: int, atMs: int) {
    exists k: nat, moment: nat, history ::
      env.clock(moment) <= atMs && DecidedAt(env, log, id, untilMs, k, moment, history)
  }

  /** No stamp lies ahead, and a Failed job's last event is its failure. */
  ghost predicate Stamped(env: Env, s: State) {
    && (forall i | 0 <= i < |s.log| :: s.log[i].at <= env.clock(s.now))
    && (forall id | s.PhaseOf(id).Failed? :: exists k: nat :: LastFailed(s.log, id, k))
  }

  /** A retry event of the log: every later event of its job is at or past its
      deadline, and the job is still waiting or the deadline has passed. */
  ghost predicate HonouredAt(env: Env, s: State, i: nat)
    requires i < |s.log|
  {
    var e := s.log[i];
    e.to.Retrying? ==>
      && Decided(env, s.log[..i], e.id, e.to.untilMs, e.at)
      && (forall j | i < j < |s.log| && s.log[j].id == e.id :: s.log[j].at >= e.to.untilMs)
      && (env.clock(s.now) >= e.to.untilMs || s.PhaseOf(e.id) == e.to)
  }

  ghost predicate Honoured(env: Env, m: Mach) {
    && (forall i | 0 <= i < |m.s.log| :: HonouredAt(env, m.s, i))
    && (m.pc.Armed? && m.pc.signal.BackoffElapsed? && m.s.PhaseOf(m.pc.id).Retrying? ==>
          env.clock(m.s.now) >= m.s.PhaseOf(m.pc.id).untilMs)
    && (m.pc.Armed? && m.pc.signal.RetryDecide? && m.pc.signal.outcome.Retry? ==>
          Decided(env, m.s.log, m.pc.id, m.pc.signal.outcome.untilMs, env.clock(m.s.now)))
  }

  ghost predicate AllCounted(m: Mach) {
    forall id :: CounterTrue(m, id)
  }

  /** Time and events of other jobs take nothing from a decision. */
  lemma DecidedLater(env: Env, log: seq<TransitionEvent>, log': seq<TransitionEvent>, id: JobId, untilMs: int,
                     atMs: int, laterMs: int)
    requires Decided(env, log, id, untilMs, atMs) && atMs <= laterMs
    requires log' == log || (|log'| == |log| + 1 && log'[..|log|] == log && log'[|log|].id != id)
    ensures Decided(env, log', id, untilMs, laterMs)
  {
    var k: nat, moment: nat, history :|
      env.clock(moment) <= atMs && DecidedAt(env, log, id, untilMs, k, moment, history);
    if log' != log {
      assert log' == log + [log'[|log|]];
      CountsExtend(log, log'[|log|], id);
    }
    assert DecidedAt(env, log', id, untilMs, k, moment, history);
  }

  lemma LastFailedLater(s: State, s': State, env: Env, id: JobId)
    requires Logged(env, s, s') && Stamped(env, s) && s'.PhaseOf(id).Failed?
    ensures exists k: nat :: LastFailed(s'.log, id, k)
  {
    var e := s'.log[|s.log|];
    if e.id == id {
      assert LastFailed(s'.log, id, |s.log|);
    } else {
      assert s.PhaseOf(id).Failed?;
      var k: nat :| LastFailed(s.log, id, k);
      assert s'.log[k] == s.log[k];
      assert LastFailed(s'.log, id, k) by {
        forall m | k < m < |s'.log| ensures s'.log[m].id != id {
          if m < |s.log| {
            assert s'.log[m] == s.log[m];
          }
        }
      }
    }
  }

  lemma StampedKept(env: Env, m: Mach, step: Step)
    requires Monotone(env.clock) && Remembers(m) && Next(env, m, step).Some? && Stamped(env, m.s)
    ensures Stamped(env, Next(env, m, step).value.s)
  {
    var s, s' := m.s, Next(env, m, step).value.s;
    StepEffect(env, m, step);
    TimePasses(env, m, step);
    assert env.clock(s.now) <= env.clock(s'.now);
    if step.Fire? || step.Operate? {
      forall id | s'.PhaseOf(id).Failed? ensures exists k: nat :: LastFailed(s'.log, id, k) {
        LastFailedLater(s, s', env, id);
      }
      forall i | 0 <= i < |s'.log| ensures s'.log[i].at <= env.clock(s'.now) {
        if i < |s.log| {
          assert s'.log[i] == s.log[i];
        }
      }
    } else {
      forall id | s'.PhaseOf(id).Failed? ensures exists k: nat :: LastFailed(s'.log, id, k) {
        assert s.PhaseOf(id).Failed?;
      }
    }
  }

  lemma HonouredSilent(env: Env, s: State, s': State, i: nat)
    requires Monotone(env.clock) && Silent(s, s') && s.now <= s'.now
    requires i < |s.log| && HonouredAt(env, s, i)
    ensures HonouredAt(env, s', i)
  {
    var e := s.log[i];
    if e.to.Retrying? {
      assert s'.PhaseOf(e.id) == s.PhaseOf(e.id);
      assert env.clock(s.now) <= env.clock(s'.now);
    }
  }

  lemma HonouredLogged(env: Env, s: State, s': State, i: nat)
    requires Monotone(env.clock) && Logged(env, s, s')
    requires i < |s.log| && HonouredAt(env, s, i)
    requires s'.log[|s.log|].from.Retrying? ==> env.clock(s.now) >= s'.log[|s.log|].from.untilMs
    ensures HonouredAt(env, s', i)
  {
    var e := s.log[i];
    assert s'.log[i] == e && s'.log[..i] == s.log[..i];
    if e.to.Retrying? {
      assert env.clock(s.now) <= env.clock(s'.now);
      forall j | i < j < |s'.log| && s'.log[j].id == e.id ensures s'.log[j].at >= e.to.untilMs {
        if j < |s.log| {
          assert s'.log[j] == s.log[j];
        }
      }
    }
  }

  lemma DecisionMade(env: Env, s: State, id: JobId, n: nat)
    requires Monotone(env.clock) && Stamped(env, s) && s.PhaseOf(id).Failed?
    requires s.AttemptsOf(id) == Failures(s.log, id) == n >= 1 && HistoryEndsAt(s.HistoryOf(id), n)
    ensures var (s', outcome) := DecideRetry(env, s, id);
            outcome.Retry? ==> Decided(env, s.log, id, outcome.untilMs, env.clock(s'.now))
  {
    var (s', outcome) := DecideRetry(env, s, id);
    if outcome.Retry? {
      var k: nat :| LastFailed(s.log, id, k);
      assert DecidedAt(env, s.log, id, outcome.untilMs, k, s.now, s.HistoryOf(id));
      assert env.clock(s.now) <= env.clock(s'.now);
    }
  }

  lemma HonouredKept(env: Env, m: Mach, step: Step)
    requires Monotone(env.clock) && Remembers(m) && AllCounted(m) && Stamped(env, m.s) && Honoured(env, m)
    requires Next(env, m, step).Some?
    ensures Honoured(env, Next(env, m, step).value)
  {
    var m' := Next(env, m, step).value;
    var s, s' := m.s, m'.s;
    StepEffect(env, m, step);
    TimePasses(env, m, step);
    if step.Fire? || step.Operate? {
      forall i | 0 <= i < |s.log| ensures HonouredAt(env, s', i) {
        HonouredLogged(env, s, s', i);
      }
      assert s'.log[..|s.log|] == s.log;
      assert HonouredAt(env, s', |s.log|);
    } else {
      forall i | 0 <= i < |s'.log| ensures HonouredAt(env, s', i) {
        HonouredSilent(env, s, s', i);
      }
    }
    ArmedHonoured(env, m, step);
  }

  /** The part about a signal the thread holds. */
  lemma ArmedHonoured(env: Env, m: Mach, step: Step)
    requires Monotone(env.clock) && Remembers(m) && AllCounted(m) && Stamped(env, m.s) && Honoured(env, m)
    requires Next(env, m, step).Some?
    ensures var m' := Next(env, m, step).value;
            && (m'.pc.Armed? && m'.pc.signal.BackoffElapsed? && m'.s.PhaseOf(m'.pc.id).Retrying? ==>
                  env.clock(m'.s.now) >= m'.s.PhaseOf(m'.pc.id).untilMs)
            && (m'.pc.Armed? && m'.pc.signal.RetryDecide? && m'.pc.signal.outcome.Retry? ==>
                  Decided(env, m'.s.log, m'.pc.id, m'.pc.signal.outcome.untilMs, env.clock(m'.s.now)))
  {
    hide Decided, HonouredAt, DecideRetry;
    var m' := Next(env, m, step).value;
    StepEffect(env, m, step);
    TimePasses(env, m, step);
    assert env.clock(m.s.now) <= env.clock(m'.s.now);
    if m'.pc.Armed? {
      if step.Choose? {
        if m'.pc.signal.RetryDecide? {
          assert CounterTrue(m, m.pc.id);
          DecisionMade(env, m.s, m.pc.id, m.s.AttemptsOf(m.pc.id));
        }
      } else {
        assert m'.pc == m.pc;
        OutsideMoves(env, m, step, m.pc.id);
        if m.pc.signal.RetryDecide? && m.pc.signal.outcome.Retry? {
          DecidedLater(env, m.s.log, m'.s.log, m.pc.id, m.pc.signal.outcome.untilMs,
                       env.clock(m.s.now), env.clock(m'.s.now));
        }
      }
    }
  }

  lemma {:induction false} RunHonoured(env: Env, m: Mach, steps: seq<Step>)
    requires Monotone(env.clock) && Remembers(m) && AllCounted(m) && Stamped(env, m.s) && Honoured(env, m) && Run(env, m, steps).Some?
    ensures Remembers(Run(env, m, steps).value) && Honoured(env, Run(env, m, steps).value)
    decreases |steps|
  {
    if steps != [] {
      RememberingStep(env, m, steps);
      HonouredKept(env, m, steps[0]);
      StampedKept(env, m, steps[0]);
      forall id ensures CounterTrue(Next(env, m, steps[0]).value, id) {
        CounterKept(env, m, steps[0], id);
      }
      RunHonoured(env, Next(env, m, steps[0]).value, steps[1..]);
    }
  }

  /** The delay an n-th failure earns, over the unbounded integers. */
  function Delay(policy: RetryPolicy, n: nat): nat
    requires policy.Fixed? || policy.Exponential?
    requires n >= 1
  {
    match policy
    case Fixed(_, delayMs) => delayMs
    case Exponential(_, baseMs, maxMs, jitter) => jitter(Min(maxMs, baseMs * Pow2(Min(n - 1, 30))), n)
  }

  lemma DelayDecided(policy: RetryPolicy, n: nat, history: seq<FailureRecord>)
    requires n >= 1 && !policy.Custom? && policy.Decide(n, history).RetryAfter?
    ensures policy.Fixed? || policy.Exponential?
    ensures n < policy.Allowance() && policy.Decide(n, history).afterMs == Delay(policy, n)
  {
    if policy.Exponential? {
      BackoffExact(policy.baseMs, policy.maxMs, n);
    }
  }

  /** The wait between a job's failure at `k` and its later event at `j`, where the
      retry was scheduled at `i`: the decision was taken between `k` and `i`, the
      deadline is the decision plus the policy's delay exactly when that sum fits an
      i64, nothing of the job happens before the deadline, and so, where the sum fits,
      the job waits at least its delay after the failure itself. */
  ghost predicate Waited(env: Env, log: seq<TransitionEvent>, k: nat, i: nat, j: nat, moment: nat)
    requires i < j < |log| && log[i].to.Retrying?
  {
    var id, untilMs := log[i].id, log[i].to.untilMs;
    var policy, n := env.PolicyOf(id), Failures(log[..i], id);
    && LastFailed(log[..i], id, k)
    && (policy.Fixed? || policy.Exponential?) && 1 <= n < policy.Allowance()
    && log[k].at <= env.clock(moment) <= log[i].at && log[j].at >= untilMs
    && var due := env.clock(moment) + Delay(policy, n);
       && (untilMs == due <==> due <= I64_MAX)
       && (due <= I64_MAX ==> log[j].at >= log[k].at + Delay(policy, n))
  }

  /** Over any interleaving from a fresh scheduler with a clock that never goes back:
      every event of a job (so every execution) after a scheduled retry has waited out
      the policy's delay for the number of failures so far, counted from the last one. */
  lemma BackoffHonoured(env: Env, s0: State, steps: seq<Step>, i: nat, j: nat) returns (k: nat, moment: nat)
    requires Monotone(env.clock) && Fresh(s0) && Run(env, Mach(s0, Idle), steps).Some?
    requires (forall n :: IsI64(env.clock(n)))
    requires var log := Run(env, Mach(s0, Idle), steps).value.s.log;
             i < j < |log| && log[i].id == log[j].id && log[i].to.Retrying?
             && !env.PolicyOf(log[i].id).Custom?
    ensures Waited(env, Run(env, Mach(s0, Idle), steps).value.s.log, k, i, j, moment)
  {
    RunHonoured(env, Mach(s0, Idle), steps);
    k, moment := HonouredPair(env, Run(env, Mach(s0, Idle), steps).value.s, i, j);
  }

  lemma HonouredPair(env: Env, s: State, i: nat, j: nat) returns (k: nat, moment: nat)
    requires forall n :: IsI64(env.clock(n))
    requires i < j < |s.log| && s.log[i].id == s.log[j].id && s.log[i].to.Retrying?
    requires HonouredAt(env, s, i) && !env.PolicyOf(s.log[i].id).Custom?
    ensures Waited(env, s.log, k, i, j, moment)
  {
    var e, before := s.log[i], s.log[..i];
    var n := Failures(before, e.id);
    var policy := env.PolicyOf(e.id);
    var f: nat, at: nat, history :| env.clock(at) <= e.at && DecidedAt(env, before, e.id, e.to.untilMs, f, at, history);
    k, moment := f, at;
    DelayDecided(policy, n, history);
    DeadlineExactIff(env.clock(moment), Delay(policy, n));
  }

  /** In particular no execution is under way while a deadline is still ahead. */
  lemma NoEarlyExecution(env: Env, s0: State, steps: seq<Step>, id: JobId, i: nat)
    requires Monotone(env.clock) && Fresh(s0) && Run(env, Mach(s0, Idle), steps).Some?
    ensures var s := Run(env, Mach(s0, Idle), steps).value.s;
            s.PhaseOf(id).Running? && i < |s.log| && s.log[i].id == id && s.log[i].to.Retrying? ==>
              env.clock(s.now) >= s.log[i].to.untilMs
  {
    RunHonoured(env, Mach(s0, Idle), steps);
    var s := Run(env, Mach(s0, Idle), steps).value.s;
    if i < |s.log| {
      assert HonouredAt(env, s, i);
    }
  }
}
