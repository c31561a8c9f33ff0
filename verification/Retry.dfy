/** Retry policies and the arithmetic of their delays. */
module Retry {
  const U64_MAX: nat := 0xFFFF_FFFF_FFFF_FFFF
  const I64_MAX: int := 0x7FFF_FFFF_FFFF_FFFF
  const I64_MIN: int := -0x8000_0000_0000_0000

  type u64 = n: nat | n <= U64_MAX

  datatype FailureKind = Transient | Declarative

  datatype FailureRecord = FailureRecord(attempt: nat, atMs: int, error: string, kind: FailureKind)

  datatype RetryDecision = RetryAfter(afterMs: nat) | GiveUp

  /** The float jitter of an exponential policy is an arbitrary function of the
      capped delay and the attempt; a jitter of zero or less is the identity. */
  datatype RetryPolicy =
    | NoRetry
    | Fixed(attempts: nat, delayMs: u64)
    | Exponential(attempts: nat, baseMs: u64, maxMs: u64, jitter: (u64, nat) -> u64)
    | Custom(decider: (nat, seq<FailureRecord>) -> RetryDecision)
  {
    function Decide(attempt: nat, history: seq<FailureRecord>): RetryDecision {
      if history != [] && history[|history| - 1].kind.Declarative? then
        GiveUp
      else
        match this
        case NoRetry => GiveUp
        case Fixed(attempts, delayMs) =>
          if attempt >= attempts then GiveUp else RetryAfter(delayMs)
        case Exponential(attempts, baseMs, maxMs, jitter) =>
          if attempt >= attempts then GiveUp
          else RetryAfter(jitter(Backoff(baseMs, maxMs, attempt), attempt))
        case Custom(decider) => decider(attempt, history)
    }

    /** How many failed executions the policy tolerates before it gives up; a
        custom decider promises no number. */
    function Allowance(): nat
      requires !Custom?
    {
      if NoRetry? || attempts == 0 then 1 else attempts
    }
  }

  /** For every policy but a custom one: a retry happens only below the
      allowance, whatever the history says. */
  lemma RetryOnlyBelowAllowance(policy: RetryPolicy, attempt: nat, history: seq<FailureRecord>)
    requires !policy.Custom?
    ensures policy.Decide(attempt, history).RetryAfter? ==> attempt < policy.Allowance()
    ensures attempt >= policy.Allowance() ==> policy.Decide(attempt, history).GiveUp?
    ensures
      history == [] || history[|history| - 1].kind.Transient? ==>
        (policy.Decide(attempt, history).RetryAfter? <==> !policy.NoRetry? && attempt < policy.attempts)
  {
  }

  /** A declarative failure stops every policy, a custom one included, whatever its
      allowance; it is the latest record that counts, and without one a custom decider
      is asked with the arguments as they are. */
  lemma DeclarativeStops(policy: RetryPolicy, attempt: nat, history: seq<FailureRecord>, latest: FailureRecord)
    ensures latest.kind.Declarative? ==> policy.Decide(attempt, history + [latest]).GiveUp?
    ensures policy.Custom? && latest.kind.Transient? ==>
              policy.Decide(attempt, history + [latest]) == policy.decider(attempt, history + [latest])
    ensures policy.Custom? ==> policy.Decide(attempt, []) == policy.decider(attempt, [])
  {
  }

  function Min(a: int, b: int): int {
    if a <= b then a else b
  }

  function Pow2(n: nat): nat {
    if n == 0 then 1 else 2 * Pow2(n - 1)
  }

  function SaturatingMul(a: u64, b: nat): u64 {
    Min(a * b, U64_MAX)
  }

  /** The shift amount `(attempt - 1).min(30)` in u32 arithmetic: at attempt 0 the
      subtraction wraps to the largest u32. */
  function ShiftAmount(attempt: nat): nat {
    if attempt == 0 then 30 else Min(attempt - 1, 30)
  }

  function Backoff(baseMs: u64, maxMs: u64, attempt: nat): u64 {
    Min(SaturatingMul(baseMs, Pow2(ShiftAmount(attempt))), maxMs)
  }

  lemma {:induction false} Pow2Monotone(m: nat, n: nat)
    requires m <= n
    ensures Pow2(m) <= Pow2(n)
    decreases n - m
  {
    if m < n {
      Pow2Monotone(m, n - 1);
    }
  }

  /** The saturating 64-bit computation is the exact capped exponential over the
      unbounded integers. */
  lemma BackoffExact(baseMs: u64, maxMs: u64, attempt: nat)
    requires attempt >= 1
    ensures Backoff(baseMs, maxMs, attempt) == Min(maxMs, baseMs * Pow2(Min(attempt - 1, 30)))
  {
  }

  /** Waiting never gets shorter from one attempt to a later one, and the cap holds. */
  lemma BackoffMonotone(baseMs: u64, maxMs: u64, earlier: nat, later: nat)
    requires 1 <= earlier <= later
    ensures Backoff(baseMs, maxMs, earlier) <= Backoff(baseMs, maxMs, later) <= maxMs
  {
    var m, n := ShiftAmount(earlier), ShiftAmount(later);
    Pow2Monotone(m, n);
    MulMonotone(baseMs, Pow2(m), Pow2(n));
  }

  /** The same without powers: the first delay is the base, each further one is twice
      the one before, up to the cap, and from the 31st on it stays. */
  lemma BackoffDoubles(baseMs: u64, maxMs: u64, attempt: nat)
    requires attempt >= 1
    ensures Backoff(baseMs, maxMs, 1) == Min(baseMs, maxMs)
    ensures attempt <= 30 ==> Backoff(baseMs, maxMs, attempt + 1) == Min(2 * Backoff(baseMs, maxMs, attempt), maxMs)
    ensures attempt > 30 ==> Backoff(baseMs, maxMs, attempt + 1) == Backoff(baseMs, maxMs, attempt)
  {
    if attempt <= 30 {
      DoubleProduct(baseMs, Pow2(attempt - 1));
    }
  }

  lemma DoubleProduct(a: nat, x: nat)
    ensures a * (2 * x) == 2 * (a * x)
  {
  }

  lemma {:induction false} Pow2Adds(m: nat, n: nat)
    ensures Pow2(m + n) == Pow2(m) * Pow2(n)
    decreases m
  {
    if m > 0 {
      Pow2Adds(m - 1, n);
      assert Pow2(m) * Pow2(n) == 2 * (Pow2(m - 1) * Pow2(n));
    }
  }

  /** The limits are those of 64-bit integers. */
  lemma Widths()
    ensures U64_MAX == 18446744073709551615 && I64_MAX == 9223372036854775807 && I64_MIN == -9223372036854775808
    ensures Pow2(64) == U64_MAX + 1
  {
    assert Pow2(4) == 16;
    hide Pow2;
    Pow2Adds(4, 4);
    assert Pow2(8) == 256;
    Pow2Adds(8, 8);
    assert Pow2(16) == 65536;
    Pow2Adds(16, 16);
    assert Pow2(32) == 4294967296;
    Pow2Adds(32, 32);
  }

  lemma MulMonotone(a: nat, x: nat, y: nat)
    requires x <= y
    ensures a * x <= a * y
  {
  }

  /** Two's complement truncation to 64 bits. */
  function WrapI64(x: int): int {
    (x - I64_MIN) % (U64_MAX + 1) + I64_MIN
  }

  predicate IsI64(x: int) {
    I64_MIN <= x <= I64_MAX
  }

  /** The absolute deadline: the delay is cast to i64 and added to the clock,
      both with wrap-around. */
  function Deadline(nowMs: int, afterMs: nat): int {
    WrapI64(nowMs + WrapI64(afterMs))
  }

  /** The deadline is the sum the caller means exactly when that sum fits an i64.
      Otherwise it lies before it, so the wait is cut short. */
  lemma DeadlineExactIff(nowMs: int, afterMs: nat)
    requires IsI64(nowMs)
    ensures Deadline(nowMs, afterMs) == nowMs + afterMs <==> nowMs + afterMs <= I64_MAX
    ensures Deadline(nowMs, afterMs) >= nowMs + afterMs <==> nowMs + afterMs <= I64_MAX
  {
  }

  /** An overflowing deadline lies in the past: the wait is not shortened but gone. */
  lemma OverflowWaitsNothing(nowMs: int, afterMs: u64)
    requires IsI64(nowMs) && nowMs + afterMs > I64_MAX
    ensures Deadline(nowMs, afterMs) == nowMs + afterMs - (U64_MAX + 1) < nowMs
  {
  }

  /** A delay a policy can hold: from the epoch on, `Fixed` with 2^63 milliseconds
      retries at once, where one millisecond less at the epoch waits as it should. */
  lemma LongestDelayWaitsNothing(nowMs: nat, n: nat)
    requires IsI64(nowMs)
    ensures 1 < n ==> Fixed(n, I64_MAX + 1).Decide(1, []) == RetryAfter(I64_MAX + 1)
    ensures Deadline(nowMs, I64_MAX + 1) < nowMs
    ensures Deadline(0, I64_MAX) == I64_MAX
  {
    OverflowWaitsNothing(nowMs, I64_MAX + 1);
  }
}
