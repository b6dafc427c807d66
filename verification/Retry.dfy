/** `ingest/retry.py`: Full Jitter backoff, the random draw given as a fraction of the ceiling. */
module Retry {
  const MAX_EMBEDDING_RETRY_ATTEMPTS: nat := 5
  const DEFAULT_BASE_DELAY_SECONDS: real := 0.5
  const DEFAULT_MAX_DELAY_SECONDS: real := 60.0

  /** What `random.random()` can return. */
  type Draw = x: real | 0.0 <= x <= 1.0 witness 0.0

  function Pow2(n: nat): (p: nat)
    ensures p > 0
  {
    if n == 0 then 1 else 2 * Pow2(n - 1)
  }

  /** `base * 2**attempt`. */
  function Exponential(base: real, attempt: nat): (e: real)
    ensures base >= 0.0 ==> e >= base
  {
    if attempt == 0 then base else 2.0 * Exponential(base, attempt - 1)
  }

  lemma {:induction false} ExponentialIsPower(base: real, attempt: nat)
    ensures Exponential(base, attempt) == base * Pow2(attempt) as real
  {
    if attempt > 0 {
      ExponentialIsPower(base, attempt - 1);
      assert Pow2(attempt) as real == 2.0 * Pow2(attempt - 1) as real;
    }
  }

  function Ceiling(attempt: nat, base: real, cap: real): real {
    if cap < Exponential(base, attempt) then cap else Exponential(base, attempt)
  }

  lemma FractionOf(draw: Draw, ceiling: real)
    requires ceiling >= 0.0
    ensures 0.0 <= draw * ceiling <= ceiling
  {
  }

  /** `random.uniform(0, ceiling)`: anywhere from no delay to the capped exponential, never beyond. */
  function ComputeBackoffDelay(attempt: nat, draw: Draw, base: real := DEFAULT_BASE_DELAY_SECONDS,
                               cap: real := DEFAULT_MAX_DELAY_SECONDS): (delay: real)
    requires base >= 0.0 && cap >= 0.0
    ensures 0.0 <= delay <= cap && delay <= Exponential(base, attempt)
  {
    FractionOf(draw, Ceiling(attempt, base, cap));
    draw * Ceiling(attempt, base, cap)
  }

  /** The whole range is used: no draw gives no delay, a full one the capped `base * 2**attempt`. */
  lemma DelayRange(attempt: nat, base: real, cap: real)
    requires base >= 0.0 && cap >= 0.0
    ensures ComputeBackoffDelay(attempt, 0.0, base, cap) == 0.0
    ensures ComputeBackoffDelay(attempt, 1.0, base, cap) == if cap < base * Pow2(attempt) as real then cap
      else base * Pow2(attempt) as real
  {
    ExponentialIsPower(base, attempt);
  }

  /** The time slept over the first `retries` retries. */
  function TotalDelay(retries: nat, draws: nat -> Draw, base: real := DEFAULT_BASE_DELAY_SECONDS,
                      cap: real := DEFAULT_MAX_DELAY_SECONDS): real
    requires base >= 0.0 && cap >= 0.0
  {
    if retries == 0 then 0.0
    else TotalDelay(retries - 1, draws, base, cap) + ComputeBackoffDelay(retries, draws(retries), base, cap)
  }

  /** Every draw's part of the ceiling. */
  lemma DelayIs(attempt: nat, draw: Draw, base: real, cap: real)
    requires base >= 0.0 && cap >= 0.0
    ensures var full := base * Pow2(attempt) as real;
      ComputeBackoffDelay(attempt, draw, base, cap) == draw * (if cap < full then cap else full)
  {
    ExponentialIsPower(base, attempt);
    hide Exponential, Pow2;
  }

  /** Retry `m` sleeps its draw's part of `min(cap, base * 2**m)`, the first one counting as 1. */
  lemma NextSleep(retries: nat, draws: nat -> Draw, base: real, cap: real)
    requires base >= 0.0 && cap >= 0.0
    ensures TotalDelay(0, draws, base, cap) == 0.0
    ensures var full := base * Pow2(retries + 1) as real;
      TotalDelay(retries + 1, draws, base, cap)
        == TotalDelay(retries, draws, base, cap) + draws(retries + 1) * (if cap < full then cap else full)
  {
    hide ComputeBackoffDelay, Pow2, Exponential, Ceiling;
    DelayIs(retries + 1, draws(retries + 1), base, cap);
  }

  /** With full draws at the shipped settings: 1, 2, 4, 8 and 16 seconds, 31 in all; and never more than
      60 for any one retry, however many a larger budget would allow. */
  lemma FullDrawsSleep(draws: nat -> Draw)
    requires forall m :: draws(m) == 1.0
    ensures TotalDelay(1, draws) == 1.0 && TotalDelay(2, draws) == 3.0 && TotalDelay(3, draws) == 7.0
    ensures TotalDelay(4, draws) == 15.0 && TotalDelay(5, draws) == 31.0
    ensures ComputeBackoffDelay(6, 1.0) == 32.0
    ensures forall m: nat :: m >= 7 ==> ComputeBackoffDelay(m, 1.0) == 60.0
  {
    assert Pow2(1) == 2 && Pow2(3) == 8 && Pow2(5) == 32 && Pow2(7) == 128;
    hide TotalDelay, Exponential;
    var base, cap := DEFAULT_BASE_DELAY_SECONDS, DEFAULT_MAX_DELAY_SECONDS;
    NextSleep(0, draws, base, cap);
    NextSleep(1, draws, base, cap);
    NextSleep(2, draws, base, cap);
    NextSleep(3, draws, base, cap);
    NextSleep(4, draws, base, cap);
    DelayRange(6, base, cap);
    forall m: nat | m >= 7
      ensures ComputeBackoffDelay(m, 1.0) == 60.0
    {
      Pow2Monotone(7, m);
      DelayRange(m, base, cap);
    }
  }

  lemma {:induction false} TotalDelayWithin(retries: nat, draws: nat -> Draw, base: real, cap: real)
    requires base >= 0.0 && cap >= 0.0
    ensures 0.0 <= TotalDelay(retries, draws, base, cap) <= retries as real * cap
    ensures TotalDelay(retries, draws, base, cap) <= Exponential(base, retries + 1) - 2.0 * base
  {
    if retries > 0 {
      TotalDelayWithin(retries - 1, draws, base, cap);
      assert retries as real * cap == (retries - 1) as real * cap + cap;
    }
  }

  /** However the draws fall, `m` retries sleep at most `min(m * cap, base * (2^(m+1) - 2))`. */
  lemma TotalDelayBound(retries: nat, draws: nat -> Draw, base: real, cap: real)
    requires base >= 0.0 && cap >= 0.0
    ensures 0.0 <= TotalDelay(retries, draws, base, cap) <= retries as real * cap
    ensures TotalDelay(retries, draws, base, cap) <= base * (Pow2(retries + 1) as real - 2.0)
  {
    TotalDelayWithin(retries, draws, base, cap);
    ExponentialIsPower(base, retries + 1);
    var p := Pow2(retries + 1) as real;
    assert base * (p - 2.0) == base * p - 2.0 * base;
  }

  /** The most a loop with this retry budget can sleep. */
  function SleepBound(budget: nat, base: real, cap: real): real {
    var linear, exponential := budget as real * cap, base * (Pow2(budget + 1) as real - 2.0);
    if linear < exponential then linear else exponential
  }

  lemma {:induction false} Pow2Monotone(m: nat, n: nat)
    requires m <= n
    ensures Pow2(m) <= Pow2(n)
  {
    if m < n {
      Pow2Monotone(m, n - 1);
    }
  }

  lemma SleepWithinLinear(retries: nat, budget: nat, draws: nat -> Draw, base: real, cap: real)
    requires retries <= budget && base >= 0.0 && cap >= 0.0
    ensures 0.0 <= TotalDelay(retries, draws, base, cap) <= budget as real * cap
  {
    hide TotalDelay, Pow2;
    TotalDelayBound(retries, draws, base, cap);
    ScaleMonotone(retries as real, budget as real, cap);
  }

  lemma SleepWithinExponential(retries: nat, budget: nat, draws: nat -> Draw, base: real, cap: real)
    requires retries <= budget && base >= 0.0 && cap >= 0.0
    ensures TotalDelay(retries, draws, base, cap) <= base * (Pow2(budget + 1) as real - 2.0)
  {
    hide TotalDelay, Pow2;
    TotalDelayBound(retries, draws, base, cap);
    Pow2Monotone(retries + 1, budget + 1);
    ScaleMonotone(Pow2(retries + 1) as real - 2.0, Pow2(budget + 1) as real - 2.0, base);
  }

  /** However many of the budget's retries are used, and however the draws fall. */
  lemma SleepWithinBound(retries: nat, budget: nat, draws: nat -> Draw, base: real, cap: real)
    requires retries <= budget && base >= 0.0 && cap >= 0.0
    ensures 0.0 <= TotalDelay(retries, draws, base, cap) <= SleepBound(budget, base, cap)
  {
    hide TotalDelay, Pow2;
    SleepWithinLinear(retries, budget, draws, base, cap);
    SleepWithinExponential(retries, budget, draws, base, cap);
  }

  lemma ScaleMonotone(a: real, b: real, factor: real)
    requires a <= b && factor >= 0.0
    ensures a * factor <= b * factor && factor * a <= factor * b
  {
  }

  /** At the shipped settings no run of the retry loop sleeps longer than 31 seconds. */
  lemma DefaultSleepBound()
    ensures SleepBound(MAX_EMBEDDING_RETRY_ATTEMPTS, DEFAULT_BASE_DELAY_SECONDS, DEFAULT_MAX_DELAY_SECONDS) == 31.0
  {
    assert Pow2(3) == 8;
    assert Pow2(6) == 64;
  }
}
