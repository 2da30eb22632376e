/**
 * Retrying with capped exponential back-off.
 *
 * The delay is multiplied and capped after each failure rather than computed from the number of failures, and what is
 * slept is the delay with jitter, capped once more. That the two come to the capped exponential is a theorem, and has
 * its condition: the first delay is not capped.
 */
module Retry {

  datatype Policy = Policy(maxAttempts: int, baseDelay: real, maxDelay: real, multiplier: real)

  /** What one call of the function does. */
  datatype Attempt<V, E> = Value(value: V) | Fails(error: E, retryable: bool)

  datatype Ending<V, E> = Returned(value: V) | Raised(error: E) | NothingToRaise

  /** A delay after one more failure, before the cap. */
  function Grown(delay: real, multiplier: real): real {
    delay * multiplier
  }

  function Min(a: real, b: real): real {
    if a <= b then a else b
  }

  /** The delay in force after `k` failures, as the loop updates it. */
  function Delay(p: Policy, k: nat): real {
    if k == 0 then p.baseDelay else Min(Grown(Delay(p, k - 1), p.multiplier), p.maxDelay)
  }

  /** Ten per cent of jitter, and the cap again. */
  function Wait(p: Policy, k: nat): real {
    Min(Delay(p, k) + Delay(p, k) * 0.1, p.maxDelay)
  }

  /** The waits after the first `n` failures. */
  function Waits(p: Policy, n: nat): seq<real> {
    seq(n, i requires 0 <= i < n => Wait(p, i))
  }

  function Sum(s: seq<real>): real {
    if s == [] then 0.0 else s[0] + Sum(s[1..])
  }

  function Power(x: real, k: nat): real {
    if k == 0 then 1.0 else x * Power(x, k - 1)
  }

  predicate NonNegative(p: Policy) {
    p.baseDelay >= 0.0 && p.maxDelay >= 0.0 && p.multiplier >= 0.0
  }

  /** Every call before the `n`-th failed in a way worth retrying. */
  ghost predicate AllRetryable<V, E>(calls: nat -> Attempt<V, E>, n: nat) {
    forall i :: 0 <= i < n ==> calls(i).Fails? && calls(i).retryable
  }

  /**
   * Calls until a value, a failure not worth retrying, or the last attempt. The value returned is the first one; the
   * error raised is the last call's; there are never more calls than attempts, and none at all when none are allowed.
   */
  method AsyncRetry<V, E>(calls: nat -> Attempt<V, E>, p: Policy)
    returns (made: nat, slept: seq<real>, ending: Ending<V, E>)
    ensures p.maxAttempts <= 0 ==> made == 0 && slept == [] && ending == NothingToRaise
    ensures p.maxAttempts > 0 ==>
              && 1 <= made <= p.maxAttempts && AllRetryable(calls, made - 1)
              && slept == Waits(p, made - 1)
              && match calls(made - 1) {
                 case Value(v) => ending == Returned(v)
                 case Fails(e, retryable) => ending == Raised(e) && (made == p.maxAttempts || !retryable)
               }
  {
    var delay := p.baseDelay;
    made, slept := 0, [];
    while made < p.maxAttempts
      invariant made == 0 || made < p.maxAttempts
      invariant AllRetryable(calls, made)
      invariant delay == Delay(p, made)
      invariant slept == Waits(p, made)
    {
      var attempt := made;
      made := made + 1;
      match calls(attempt) {
        case Value(v) => return made, slept, Returned(v);
        case Fails(e, retryable) =>
          if !retryable || attempt == p.maxAttempts - 1 {
            return made, slept, Raised(e);
          }
          var jitter := delay * 0.1;
          slept := slept + [Min(delay + jitter, p.maxDelay)];
          delay := Min(Grown(delay, p.multiplier), p.maxDelay);
      }
    }
    return made, slept, NothingToRaise;
  }

  // ---- The delays ----

  lemma Grows(x: real, m: real)
    requires x >= 0.0 && m >= 1.0
    ensures Grown(x, m) >= x
  {
    assert x * (m - 1.0) >= 0.0;
  }

  lemma Scales(x: real, y: real, m: real)
    requires x <= y && m >= 0.0
    ensures Grown(x, m) <= Grown(y, m)
  {
    assert (y - x) * m >= 0.0;
  }

  /** Capping before or after growing makes no difference. */
  lemma CapThenGrow(x: real, m: real, cap: real)
    requires x >= 0.0 && cap >= 0.0 && m >= 1.0
    ensures Min(Grown(Min(x, cap), m), cap) == Min(Grown(x, m), cap)
  {
    if x > cap {
      Grows(cap, m);
      Grows(x, m);
    }
  }

  /** The delay as it would grow without a cap. */
  function Uncapped(p: Policy, k: nat): real {
    if k == 0 then p.baseDelay else Grown(Uncapped(p, k - 1), p.multiplier)
  }

  lemma {:induction false} UncappedIsExponential(p: Policy, k: nat)
    ensures Uncapped(p, k) == p.baseDelay * Power(p.multiplier, k)
  {
    if k == 0 {
    } else {
      UncappedIsExponential(p, k - 1);
    }
  }

  lemma {:induction false} UncappedIsNonNegative(p: Policy, k: nat)
    requires NonNegative(p)
    ensures Uncapped(p, k) >= 0.0
  {
    if k == 0 {
    } else {
      UncappedIsNonNegative(p, k - 1);
      Scales(0.0, Uncapped(p, k - 1), p.multiplier);
    }
  }

  lemma Shrinks(x: real, m: real)
    requires x >= 0.0 && 0.0 <= m <= 1.0
    ensures 0.0 <= Grown(x, m) <= x
  {
    Scales(0.0, x, m);
    Scales(m, 1.0, x);
  }

  /** Growth that never exceeds the cap never meets it. */
  lemma {:induction false} ShrinkingIsUncapped(p: Policy, k: nat)
    requires NonNegative(p) && p.multiplier <= 1.0 && p.baseDelay <= p.maxDelay
    ensures 0.0 <= Uncapped(p, k) <= p.maxDelay && Delay(p, k) == Uncapped(p, k)
  {
    if k == 0 {
    } else {
      ShrinkingIsUncapped(p, k - 1);
      Shrinks(Uncapped(p, k - 1), p.multiplier);
    }
  }

  lemma {:induction false} GrowingIsCapped(p: Policy, k: nat)
    requires NonNegative(p) && p.multiplier >= 1.0 && p.baseDelay <= p.maxDelay
    ensures Delay(p, k) == Min(Uncapped(p, k), p.maxDelay)
  {
    if k == 0 {
    } else {
      GrowingIsCapped(p, k - 1);
      UncappedIsNonNegative(p, k - 1);
      CapThenGrow(Uncapped(p, k - 1), p.multiplier, p.maxDelay);
    }
  }

  lemma DelayIsCapped(p: Policy, k: nat)
    requires NonNegative(p) && p.baseDelay <= p.maxDelay
    ensures Delay(p, k) == Min(Uncapped(p, k), p.maxDelay)
  {
    if p.multiplier >= 1.0 { GrowingIsCapped(p, k); } else { ShrinkingIsUncapped(p, k); }
  }

  /** The delay after `k` failures is the exponential, capped. */
  predicate CappedExponential(p: Policy, k: nat) {
    Delay(p, k) == Min(p.baseDelay * Power(p.multiplier, k), p.maxDelay)
  }

  lemma DelayIsCappedExponential(p: Policy, k: nat)
    requires NonNegative(p) && p.baseDelay <= p.maxDelay
    ensures CappedExponential(p, k)
  {
    DelayIsCapped(p, k);
    UncappedIsExponential(p, k);
  }

  /** It is at every failure exactly when the base is at most the cap: the first delay is the base itself, uncapped. */
  lemma CappedExponentialIff(p: Policy)
    requires NonNegative(p)
    ensures (forall k: nat :: CappedExponential(p, k)) <==> p.baseDelay <= p.maxDelay
  {
    if p.baseDelay <= p.maxDelay {
      forall k: nat ensures CappedExponential(p, k) { DelayIsCappedExponential(p, k); }
    } else {
      assert !CappedExponential(p, 0);
    }
  }

  lemma {:induction false} DelayIsNonNegative(p: Policy, k: nat)
    requires NonNegative(p)
    ensures Delay(p, k) >= 0.0
  {
    if k == 0 {
    } else {
      DelayIsNonNegative(p, k - 1);
      Scales(0.0, Delay(p, k - 1), p.multiplier);
    }
  }

  /** Every wait lies between zero and the cap. */
  lemma WaitIsBounded(p: Policy, k: nat)
    requires NonNegative(p)
    ensures 0.0 <= Wait(p, k) <= p.maxDelay
  {
    DelayIsNonNegative(p, k);
  }

  /**
   * With a base below the cap each wait is the capped exponential with jitter; while it grows no wait is shorter than
   * the last.
   */
  lemma WaitsFollowTheExponential(p: Policy, k: nat)
    requires NonNegative(p) && p.baseDelay <= p.maxDelay
    ensures Wait(p, k) == Min(1.1 * Min(Uncapped(p, k), p.maxDelay), p.maxDelay)
    ensures p.multiplier >= 1.0 ==> Wait(p, k) <= Wait(p, k + 1)
    ensures p.multiplier <= 1.0 ==> Wait(p, k) >= Wait(p, k + 1)
  {
    DelayIsCapped(p, k);
    DelayIsNonNegative(p, k);
    if p.multiplier >= 1.0 { Grows(Delay(p, k), p.multiplier); }
    if p.multiplier <= 1.0 { Shrinks(Delay(p, k), p.multiplier); }
  }

  lemma {:induction false} WaitsAddUp(p: Policy, n: nat)
    ensures Sum(Waits(p, n)) <= Grown(n as real, p.maxDelay)
  {
    if n == 0 {
    } else {
      WaitsAddUp(p, n - 1);
      assert Waits(p, n) == Waits(p, n - 1) + [Wait(p, n - 1)];
      SumAppends(Waits(p, n - 1), Wait(p, n - 1));
    }
  }

  lemma {:induction false} SumAppends(s: seq<real>, x: real)
    ensures Sum(s + [x]) == Sum(s) + x
  {
    if s == [] { assert s + [x] == [x]; }
    else {
      assert (s + [x])[1..] == s[1..] + [x];
      SumAppends(s[1..], x);
    }
  }

  /** However many calls a retry makes within its attempts, it sleeps at most the cap between any two of them. */
  lemma SleepIsBounded(p: Policy, made: nat)
    requires p.maxDelay >= 0.0 && 1 <= made <= p.maxAttempts
    ensures Sum(Waits(p, made - 1)) <= (p.maxAttempts - 1) as real * p.maxDelay
  {
    WaitsAddUp(p, made - 1);
    Scales((made - 1) as real, (p.maxAttempts - 1) as real, p.maxDelay);
  }
}
