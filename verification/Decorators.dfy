/** `backoff_delay` and `retryable`: bounded retries with a bounded total sleep. */
module Decorators {

  function Pow2(n: nat): (p: nat)
    ensures p >= 1
  {
    if n == 0 then 1 else 2 * Pow2(n - 1)
  }

  /** The upper end of the jittered delay before retry number `attempt`. */
  function BackoffCeiling(attempt: nat, base: real, maximum: real): (c: real)
    requires attempt >= 1 && base >= 0.0 && maximum >= 0.0
    ensures 0.0 <= c <= maximum
  {
    var grown := base * Pow2(attempt - 1) as real;
    if maximum < grown then maximum else grown
  }

  /** `backoff_delay`, with the random draw `jitter` in [0, 1] as a parameter. */
  function BackoffDelay(attempt: nat, base: real, maximum: real, jitter: real): (d: real)
    requires attempt >= 1 && base >= 0.0 && maximum >= 0.0 && 0.0 <= jitter <= 1.0
    ensures 0.0 <= d <= BackoffCeiling(attempt, base, maximum)
  {
    var c := BackoffCeiling(attempt, base, maximum);
    ScaleDown(jitter, c);
    jitter * c
  }

  lemma ScaleDown(j: real, c: real)
    requires 0.0 <= j <= 1.0 && 0.0 <= c
    ensures 0.0 <= j * c <= c
  {}

  /** The first ceiling is the base, each next one twice the one before, as far
      as the cap allows. */
  lemma CeilingsDouble(attempt: nat, base: real, maximum: real)
    requires attempt >= 1 && base >= 0.0 && maximum >= 0.0
    ensures BackoffCeiling(1, base, maximum) == if maximum < base then maximum else base
    ensures var twice := 2.0 * BackoffCeiling(attempt, base, maximum);
            BackoffCeiling(attempt + 1, base, maximum) == if maximum < twice then maximum else twice
  {
    var p := Pow2(attempt - 1) as real;
    assert Pow2(attempt) as real == p + p;
    Twice(base, p);
  }

  lemma Twice(b: real, p: real)
    ensures b * (p + p) == 2.0 * (b * p)
  {}

  /** Every delay up to the ceiling can be drawn, and no other. */
  lemma EveryDelayIsDrawn(attempt: nat, base: real, maximum: real, delay: real)
    requires attempt >= 1 && base >= 0.0 && maximum >= 0.0
    ensures 0.0 <= delay <= BackoffCeiling(attempt, base, maximum)
       <==> exists jitter :: 0.0 <= jitter <= 1.0 && BackoffDelay(attempt, base, maximum, jitter) == delay
  {
    var c := BackoffCeiling(attempt, base, maximum);
    if 0.0 <= delay <= c {
      var jitter := if c == 0.0 then 0.0 else delay / c;
      Portion(delay, c);
      assert BackoffDelay(attempt, base, maximum, jitter) == delay;
    }
  }

  lemma Portion(d: real, c: real)
    requires 0.0 <= d <= c
    ensures c > 0.0 ==> 0.0 <= d / c <= 1.0 && d / c * c == d
  {}

  /** The most that `n` successive backoffs can sleep. */
  function CeilingSum(n: nat, base: real, maximum: real): real
    requires base >= 0.0 && maximum >= 0.0
  {
    if n == 0 then 0.0 else CeilingSum(n - 1, base, maximum) + BackoffCeiling(n, base, maximum)
  }

  lemma {:induction false} CeilingSumLinear(n: nat, base: real, maximum: real)
    requires base >= 0.0 && maximum >= 0.0
    ensures CeilingSum(n, base, maximum) <= n as real * maximum
  {
    if n > 0 {
      CeilingSumLinear(n - 1, base, maximum);
      var m := (n - 1) as real;
      assert (m + 1.0) * maximum == m * maximum + maximum;
      assert n as real == m + 1.0;
    }
  }

  /** The last of `n` doublings, uncapped; nothing before the first. */
  function LastGrown(n: nat, base: real): real {
    if n == 0 then 0.0 else base * Pow2(n - 1) as real
  }

  function Geometric(n: nat, base: real): real {
    base * (Pow2(n) as real - 1.0)
  }

  lemma GeometricStep(n: nat, base: real)
    requires n >= 1 && base >= 0.0
    ensures Geometric(n, base) == Geometric(n - 1, base) + LastGrown(n, base)
    ensures LastGrown(n - 1, base) <= LastGrown(n, base)
  {
    var p := Pow2(n - 1) as real;
    assert Pow2(n) as real == p + p;
    Distribute(base, p);
    if n >= 2 {
      var q := Pow2(n - 2) as real;
      assert p == q + q;
      Twice(base, q);
    }
  }

  /** The doubling bound is the sum itself exactly as long as the last of the
      ceilings is below the cap. */
  lemma {:induction false} SumIsGeometric(n: nat, base: real, maximum: real)
    requires base >= 0.0 && maximum >= 0.0
    ensures CeilingSum(n, base, maximum) <= Geometric(n, base)
    ensures CeilingSum(n, base, maximum) == Geometric(n, base) <==> LastGrown(n, base) <= maximum
  {
    if n > 0 {
      SumIsGeometric(n - 1, base, maximum);
      GeometricStep(n, base);
    }
  }

  lemma Distribute(b: real, p: real)
    ensures b * (p - 1.0) + b * p == b * (p + p - 1.0)
  {}

  /** What one call of the wrapped function does. */
  datatype Outcome<T> = Returned(value: T) | Raised(transient: bool)

  /** The result of the decorated call; `NeverCalled` is the failed assertion
      that a non-positive `attempts` runs into. */
  datatype Verdict<T> = Finished(outcome: Outcome<T>) | NeverCalled

  /** Whether the loop stops after call number `attempt`. */
  predicate Stops<T>(o: Outcome<T>, attempt: int, attempts: int) {
    o.Returned? || !o.transient || attempt == attempts
  }

  /** The pauses after the first `n` failed calls, added up. */
  function TotalDelay(n: nat, base: real, maximum: real, jitter: nat -> real): real
    requires base >= 0.0 && maximum >= 0.0
    requires forall i :: 0.0 <= jitter(i) <= 1.0
  {
    if n == 0 then 0.0
    else TotalDelay(n - 1, base, maximum, jitter) + BackoffDelay(n, base, maximum, jitter(n))
  }

  /** `retryable`: the wrapped function's outcomes and the jitter draws are
      given; `calls` counts invocations and `slept` adds up the pauses. */
  method Retryable<T>(outcomes: nat -> Outcome<T>, jitter: nat -> real, attempts: int, base: real, maximum: real)
    returns (verdict: Verdict<T>, calls: nat, slept: real)
    requires base >= 0.0 && maximum >= 0.0
    requires forall i :: 0.0 <= jitter(i) <= 1.0
    ensures attempts < 1 ==> verdict == NeverCalled && calls == 0 && slept == 0.0
    ensures attempts >= 1 ==>
              && 1 <= calls <= attempts
              && verdict == Finished(outcomes(calls))
              && (outcomes(calls).Returned? || !outcomes(calls).transient || calls == attempts)
              && (forall i :: 1 <= i < calls ==> outcomes(i) == Raised(true))
              && slept == TotalDelay(calls - 1, base, maximum, jitter)
  {
    calls, slept, verdict := 0, 0.0, NeverCalled;
    var attempt := 1;
    while attempt <= attempts
      invariant attempt >= 1 && calls == attempt - 1
      invariant attempts >= 1 ==> attempt <= attempts
      invariant attempts < 1 ==> attempt == 1
      invariant forall i :: 1 <= i < attempt ==> outcomes(i) == Raised(true)
      invariant slept == TotalDelay(attempt - 1, base, maximum, jitter)
      invariant verdict == NeverCalled
      decreases attempts - attempt
    {
      calls := attempt;
      var o := outcomes(attempt);
      if Stops(o, attempt, attempts) {
        verdict := Finished(o);
        return;
      }
      slept := slept + BackoffDelay(attempt, base, maximum, jitter(attempt));
      attempt := attempt + 1;
    }
  }

  /** Whatever the draws, `calls` invocations under a budget of `attempts`
      sleep no longer than the linear and the geometric bound. */
  lemma {:induction false} SleepIsBounded(calls: nat, attempts: nat, base: real, maximum: real, jitter: nat -> real)
    requires base >= 0.0 && maximum >= 0.0 && 1 <= calls <= attempts
    requires forall i :: 0.0 <= jitter(i) <= 1.0
    ensures TotalDelay(calls - 1, base, maximum, jitter) <= (attempts - 1) as real * maximum
    ensures TotalDelay(calls - 1, base, maximum, jitter) <= base * (Pow2(attempts - 1) as real - 1.0)
  {
    DelayBelowCeilings(calls - 1, base, maximum, jitter);
    SumToLast(calls - 1, attempts - 1, base, maximum);
  }

  lemma {:induction false} DelayBelowCeilings(n: nat, base: real, maximum: real, jitter: nat -> real)
    requires base >= 0.0 && maximum >= 0.0
    requires forall i :: 0.0 <= jitter(i) <= 1.0
    ensures 0.0 <= TotalDelay(n, base, maximum, jitter) <= CeilingSum(n, base, maximum)
  {
    if n > 0 {
      DelayBelowCeilings(n - 1, base, maximum, jitter);
    }
  }

  lemma {:induction false} SumToLast(k: nat, n: nat, base: real, maximum: real)
    requires k <= n && base >= 0.0 && maximum >= 0.0
    ensures CeilingSum(k, base, maximum) <= n as real * maximum
    ensures CeilingSum(k, base, maximum) <= base * (Pow2(n) as real - 1.0)
    decreases n - k
  {
    if k == n {
      CeilingSumLinear(n, base, maximum);
      SumIsGeometric(n, base, maximum);
    } else {
      SumToLast(k + 1, n, base, maximum);
    }
  }

  /** ... and the sum of the ceilings is reached, so the geometric bound is
      reached exactly if the last pause is below the cap. */
  lemma {:induction false} SleepIsReached(n: nat, base: real, maximum: real)
    requires base >= 0.0 && maximum >= 0.0
    ensures TotalDelay(n, base, maximum, _ => 1.0) == CeilingSum(n, base, maximum)
    ensures TotalDelay(n, base, maximum, _ => 1.0) == Geometric(n, base) <==> LastGrown(n, base) <= maximum
  {
    LongestPauses(n, base, maximum, _ => 1.0);
    SumIsGeometric(n, base, maximum);
  }

  lemma {:induction false} LongestPauses(n: nat, base: real, maximum: real, jitter: nat -> real)
    requires base >= 0.0 && maximum >= 0.0 && forall i :: jitter(i) == 1.0
    ensures TotalDelay(n, base, maximum, jitter) == CeilingSum(n, base, maximum)
  {
    if n > 0 { LongestPauses(n - 1, base, maximum, jitter); }
  }
}
