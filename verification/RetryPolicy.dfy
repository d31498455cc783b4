/** Deterministic exponential backoff (retry_policy.py). */
module RetryPolicy {
  import opened Common

  datatype Policy = Policy(maxAttempts: int, baseDelay: Time, multiplier: real, maxDelay: Time) {

    /** The constructor's four checks. */
    predicate Valid() {
      && maxAttempts >= 1
      && baseDelay > 0.0
      && multiplier >= 1.0
      && maxDelay >= baseDelay
    }

    predicate IsRetryAllowed(attemptNumber: int, retryable: bool) {
      retryable && attemptNumber < maxAttempts
    }

    /** Backoff before attempt `next`; attempt 2 has exponent zero. */
    function ComputeDelay(next: int): Time
      requires Valid()
    {
      Capped(baseDelay, Power(multiplier, next - 2), maxDelay)
    }
  }

  function Capped(delay: Time, factor: real, cap: Time): Time {
    if delay * factor < cap then delay * factor else cap
  }

  function Power(base: real, exponent: int): (p: real)
    requires base >= 1.0
    ensures p > 0.0
    decreases if exponent < 0 then -exponent else exponent
  {
    if exponent == 0 then 1.0
    else if exponent > 0 then base * Power(base, exponent - 1)
    else Power(base, exponent + 1) / base
  }

  lemma {:induction false} PowerMonotone(base: real, low: int, high: int)
    requires base >= 1.0
    requires 0 <= low <= high
    ensures 1.0 <= Power(base, low) <= Power(base, high)
    decreases high
  {
    if high > 0 {
      PowerMonotone(base, if low < high then low else high - 1, high - 1);
      var p := Power(base, high - 1);
      assert base * p >= 1.0 * p;
    }
  }

  lemma CappedMonotone(delay: Time, p: real, q: real, cap: Time)
    requires 0.0 < delay <= cap
    requires 1.0 <= p <= q
    ensures delay <= Capped(delay, p, cap) <= Capped(delay, q, cap) <= cap
  {
    assert delay * 1.0 <= delay * p;
    assert delay * p <= delay * q;
  }

  lemma CappedShrinks(delay: Time, factor: real, cap: Time)
    requires 0.0 < delay <= cap && factor < 1.0
    ensures Capped(delay, factor, cap) < delay
  {
    assert delay * factor < delay * 1.0;
  }

  /** From the second attempt on, delays never shrink and stay between the two bounds. */
  lemma DelaysGrowWithinBounds(policy: Policy, earlier: int, later: int)
    requires policy.Valid()
    requires 2 <= earlier <= later
    ensures policy.baseDelay <= policy.ComputeDelay(earlier) <= policy.ComputeDelay(later) <= policy.maxDelay
  {
    PowerMonotone(policy.multiplier, earlier - 2, later - 2);
    CappedMonotone(policy.baseDelay, Power(policy.multiplier, earlier - 2), Power(policy.multiplier, later - 2),
      policy.maxDelay);
  }

  /** The lower bound is exact: asking for the delay before attempt 1 undercuts it unless backoff is flat. */
  lemma FirstAttemptDelay(policy: Policy)
    requires policy.Valid()
    ensures policy.ComputeDelay(1) >= policy.baseDelay <==> policy.multiplier == 1.0
  {
    var m := policy.multiplier;
    assert Power(m, -1) == Power(m, 0) / m == 1.0 / m;
    assert policy.ComputeDelay(1) == Capped(policy.baseDelay, 1.0 / m, policy.maxDelay);
    if m == 1.0 {
      assert policy.baseDelay * (1.0 / m) == policy.baseDelay;
    } else {
      assert (1.0 / m) * m == 1.0;
      CappedShrinks(policy.baseDelay, 1.0 / m, policy.maxDelay);
    }
  }

  lemma Grown(delay: Time, p: real, m: real, cap: Time)
    requires 0.0 < delay <= cap && p >= 1.0 && m >= 1.0
    ensures var now := Capped(delay, p, cap); Capped(delay, m * p, cap) == if m * now < cap then m * now else cap
  {
    var d := delay * p;
    assert delay * (m * p) == m * d;
    if d < cap {
      assert Capped(delay, p, cap) == d;
    } else {
      assert m * d >= 1.0 * d && m * cap >= 1.0 * cap;
    }
  }

  /** The delays one after the other: the base before attempt 2, then the multiple of the last one up to the cap. */
  lemma DelaysMultiply(policy: Policy, next: int)
    requires policy.Valid() && next >= 2
    ensures policy.ComputeDelay(2) == policy.baseDelay
    ensures var grown := policy.multiplier * policy.ComputeDelay(next);
            policy.ComputeDelay(next + 1) == if grown < policy.maxDelay then grown else policy.maxDelay
  {
    var m := policy.multiplier;
    var p := Power(m, next - 2);
    PowerMonotone(m, 0, next - 2);
    Grown(policy.baseDelay, p, m, policy.maxDelay);
    assert Power(m, next - 1) == m * p;
    BaseDelayFirst(policy);
  }

  lemma BaseDelayFirst(policy: Policy)
    requires policy.Valid()
    ensures policy.ComputeDelay(2) == policy.baseDelay
  {
    assert policy.baseDelay * 1.0 == policy.baseDelay;
  }
}
