/**
  Bounded retries with exponential backoff: which failures are retried, and how long a call can sleep in all.
*/
module Retry {
  import opened Collections
  import opened Wrappers

  datatype Category = Transient | Timeout | Validation | Permanent

  // What the classification looks at in an exception.
  datatype Exception = Exception(isTimeout: bool, isTransient: bool, isValueOrTypeError: bool, name: string)

  function Classify(e: Exception): Category {
    if e.isTimeout || e.name == "APITimeoutError" then Timeout
    else if e.isTransient || e.name in {"APIConnectionError", "InternalServerError", "RateLimitError"} then Transient
    else if e.isValueOrTypeError then Validation
    else Permanent
  }

  predicate Retryable(e: Exception) {
    Classify(e) == Transient || Classify(e) == Timeout
  }

  datatype Policy = Policy(maxRetries: nat, baseDelayMs: nat, maxDelayMs: nat, jitterRatio: real)

  predicate ValidPolicy(p: Policy) {
    p.maxRetries <= 10 && p.baseDelayMs <= p.maxDelayMs <= 60_000 && 0.0 <= p.jitterRatio <= 1.0
  }

  function Pow2(n: nat): nat {
    if n == 0 then 1 else 2 * Pow2(n - 1)
  }

  // Milliseconds before jitter.
  function BaseDelay(p: Policy, attempt: nat): nat {
    Min(p.maxDelayMs, p.baseDelayMs * Pow2(attempt))
  }

  function Jittered(base: real, ratio: real, random: real): real {
    base + base * ratio * random
  }

  // Seconds slept after the failed attempt with number `attempt`.
  function Delay(p: Policy, attempt: nat, random: real): real {
    Jittered(BaseDelay(p, attempt) as real, p.jitterRatio, random) / 1000.0
  }

  /**
    The k-th attempt's outcome is `operation(k)`, the k-th random value `random(k)`; sleeps and retry notices are
    recorded in order. The result is the first attempt that succeeds, fails for good or is the last one allowed.
  */
  method RunWithRetry<T>(operation: nat -> Result<T, Exception>, policy: Policy, random: nat -> real)
    returns (outcome: Result<T, Exception>, attempts: nat, sleeps: seq<real>, notices: seq<(nat, Category)>)
    ensures 1 <= attempts <= policy.maxRetries + 1 && outcome == operation(attempts - 1)
    ensures forall i: nat | i < attempts - 1 :: operation(i).Err? && Retryable(operation(i).error)
    ensures outcome.Err? && Retryable(outcome.error) ==> attempts == policy.maxRetries + 1
    ensures |sleeps| == |notices| == attempts - 1
    ensures forall i: nat | i < attempts - 1 ::
              sleeps[i] == Delay(policy, i, random(i)) && notices[i] == (i + 1, Classify(operation(i).error))
  {
    sleeps, notices := [], [];
    for attempt := 0 to policy.maxRetries + 1
      invariant |sleeps| == |notices| == attempt
      invariant forall i: nat | i < attempt :: operation(i).Err? && Retryable(operation(i).error)
      invariant attempt <= policy.maxRetries
      invariant forall i: nat | i < attempt ::
                  sleeps[i] == Delay(policy, i, random(i)) && notices[i] == (i + 1, Classify(operation(i).error))
    {
      outcome := operation(attempt);
      if outcome.Ok? || !Retryable(outcome.error) || attempt >= policy.maxRetries {
        return outcome, attempt + 1, sleeps, notices;
      }
      notices := notices + [(attempt + 1, Classify(outcome.error))];
      sleeps := sleeps + [Delay(policy, attempt, random(attempt))];
    }
    // The loop always returns; the source's closing error is unreachable.
    assert false;
  }

  function Total(sleeps: seq<real>): real {
    if sleeps == [] then 0.0 else Total(sleeps[..|sleeps| - 1]) + sleeps[|sleeps| - 1]
  }

  // Base delays of the first r retries, in milliseconds.
  function TotalBase(p: Policy, r: nat): nat {
    if r == 0 then 0 else TotalBase(p, r - 1) + BaseDelay(p, r - 1)
  }

  lemma {:induction false} TotalBaseBound(p: Policy, r: nat)
    ensures TotalBase(p, r) <= r * p.maxDelayMs && TotalBase(p, r) <= p.baseDelayMs * (Pow2(r) - 1)
    ensures (forall i: nat | i < r :: p.baseDelayMs * Pow2(i) <= p.maxDelayMs) ==> TotalBase(p, r) == p.baseDelayMs * (Pow2(r) - 1)
  {
    if r > 0 {
      TotalBaseBound(p, r - 1);
      assert Pow2(r) == 2 * Pow2(r - 1);
      Doubling(p.baseDelayMs, Pow2(r - 1));
      assert r * p.maxDelayMs == (r - 1) * p.maxDelayMs + p.maxDelayMs;
    }
  }

  lemma Doubling(base: nat, power: nat)
    ensures base * (power - 1) + base * power == base * (2 * power - 1)
  {
  }

  // Jitter scales a delay by at most 1 + ratio.
  lemma JitterBound(base: real, ratio: real, random: real)
    requires 0.0 <= base && 0.0 <= ratio && 0.0 <= random < 1.0
    ensures base <= Jittered(base, ratio, random) <= (1.0 + ratio) * base
  {
    var scale := base * ratio;
    Product(base, ratio);
    Shrinks(scale, random);
    assert Jittered(base, ratio, random) == base + scale * random;
  }

  lemma Product(base: real, ratio: real)
    requires 0.0 <= base && 0.0 <= ratio
    ensures 0.0 <= base * ratio && (1.0 + ratio) * base == base + base * ratio
  {
  }

  lemma Shrinks(scale: real, random: real)
    requires 0.0 <= scale && 0.0 <= random < 1.0
    ensures 0.0 <= scale * random <= scale
  {
  }

  lemma InMillis(x: real)
    ensures 1000.0 * (x / 1000.0) == x
  {
  }

  lemma DelayInMillis(p: Policy, attempt: nat, random: real)
    requires 0.0 <= p.jitterRatio && 0.0 <= random < 1.0
    ensures var base := BaseDelay(p, attempt) as real;
      base <= 1000.0 * Delay(p, attempt, random) <= (1.0 + p.jitterRatio) * base
  {
    hide BaseDelay, Jittered;
    var base := BaseDelay(p, attempt) as real;
    InMillis(Jittered(base, p.jitterRatio, random));
    JitterBound(base, p.jitterRatio, random);
  }

  lemma AddUp(factor: real, bases: real, base: real, slept: real, delay: real)
    requires bases <= slept <= factor * bases && base <= delay <= factor * base
    ensures bases + base <= slept + delay <= factor * (bases + base)
  {
  }

  lemma {:induction false} SleepsAreScaledBases(p: Policy, random: nat -> real, sleeps: seq<real>)
    requires 0.0 <= p.jitterRatio
    requires forall i: nat | i < |sleeps| :: 0.0 <= random(i) < 1.0 && sleeps[i] == Delay(p, i, random(i))
    ensures TotalBase(p, |sleeps|) as real <= 1000.0 * Total(sleeps) <= (1.0 + p.jitterRatio) * TotalBase(p, |sleeps|) as real
  {
    hide Delay, BaseDelay;
    if sleeps != [] {
      var r := |sleeps| - 1;
      SleepsAreScaledBases(p, random, sleeps[..r]);
      DelayInMillis(p, r, random(r));
      AddUp(1.0 + p.jitterRatio, TotalBase(p, r) as real, BaseDelay(p, r) as real, 1000.0 * Total(sleeps[..r]),
            1000.0 * sleeps[r]);
      assert TotalBase(p, r + 1) as real == TotalBase(p, r) as real + BaseDelay(p, r) as real;
    }
  }

  lemma Scale(slept: real, factor: real, a: real, b: real)
    requires 0.0 <= factor && a <= b && slept <= factor * a
    ensures slept <= factor * b
  {
  }

  /** After r retries at most (1 + jitter) * min(r * max_delay, base * (2^r - 1)) milliseconds have been slept. */
  lemma TotalSleepIsBounded(p: Policy, random: nat -> real, sleeps: seq<real>)
    requires ValidPolicy(p)
    requires forall i: nat | i < |sleeps| :: 0.0 <= random(i) < 1.0 && sleeps[i] == Delay(p, i, random(i))
    ensures 1000.0 * Total(sleeps) <=
            (1.0 + p.jitterRatio) * Min(|sleeps| * p.maxDelayMs, p.baseDelayMs * (Pow2(|sleeps|) - 1)) as real
  {
    hide TotalBase, Total, Delay, Pow2;
    SleepsAreScaledBases(p, random, sleeps);
    var bound := Min(|sleeps| * p.maxDelayMs, p.baseDelayMs * (Pow2(|sleeps|) - 1));
    assert TotalBase(p, |sleeps|) <= bound by {
      TotalBaseBound(p, |sleeps|);
    }
    Scale(1000.0 * Total(sleeps), 1.0 + p.jitterRatio, TotalBase(p, |sleeps|) as real, bound as real);
  }

  /** Without jitter, and while the cap is not reached, the bound is met exactly. */
  lemma BoundIsMet(p: Policy, random: nat -> real, sleeps: seq<real>)
    requires p.jitterRatio == 0.0
    requires forall i: nat | i < |sleeps| :: 0.0 <= random(i) < 1.0 && sleeps[i] == Delay(p, i, random(i))
    requires forall i: nat | i < |sleeps| :: p.baseDelayMs * Pow2(i) <= p.maxDelayMs
    ensures 1000.0 * Total(sleeps) == (p.baseDelayMs * (Pow2(|sleeps|) - 1)) as real
  {
    SleepsAreScaledBases(p, random, sleeps);
    TotalBaseBound(p, |sleeps|);
  }

  /** Timeouts and connection failures are retried, whatever else they are; nothing else is. */
  lemma RetriedExactlyWhen(e: Exception)
    ensures Retryable(e) <==>
      e.isTimeout || e.isTransient || e.name in {"APITimeoutError", "APIConnectionError", "InternalServerError", "RateLimitError"}
  {
  }

  /** The first delay is the base, each further one twice the one before, up to the cap; jitter adds its share of it. */
  lemma DelaysDouble(p: Policy, attempt: nat, random: real)
    ensures BaseDelay(p, 0) == if p.baseDelayMs <= p.maxDelayMs then p.baseDelayMs else p.maxDelayMs
    ensures BaseDelay(p, attempt + 1) == if 2 * BaseDelay(p, attempt) <= p.maxDelayMs then 2 * BaseDelay(p, attempt) else p.maxDelayMs
    ensures var base := BaseDelay(p, attempt) as real;
      1000.0 * Delay(p, attempt, random) == base + base * p.jitterRatio * random
  {
    var power := Pow2(attempt);
    assert p.baseDelayMs * Pow2(attempt + 1) == 2 * (p.baseDelayMs * power);
    InMillis(Jittered(BaseDelay(p, attempt) as real, p.jitterRatio, random));
  }
}
