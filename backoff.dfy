/**
 * The retry policy handed to each sender's circuit breaker: a function from
 * the retry count to the delay, in the time unit of the configured backoff
 * delay. The Java code returns a lambda; here the three lambdas it can build
 * are the constructors of `RetryPolicy` and `Delay` applies one.
 */
module Backoff {
  import opened Wrappers
  import opened JavaNumbers
  import opened Contract

  datatype RetryPolicy =
    | NoRetry                          // zero delay for every retry count
    | LinearBackoff(delay: Int64)      // the delay grows in proportion to the retry count
    | ExponentialBackoff(delay: Int64) // the delay doubles with every retry

  /** The guard of `computeRetryPolicy`: a config, with a policy, with a positive delay. */
  predicate HasUsableBackoff(egress: Option<EgressConfig>) {
    egress.Some? && egress.value.backoffPolicy.Some? && egress.value.backoffDelay > 0
  }

  function ComputeRetryPolicy(egress: Option<EgressConfig>): (p: RetryPolicy)
    ensures p.NoRetry? <==> !HasUsableBackoff(egress)
    ensures p.LinearBackoff? <==> HasUsableBackoff(egress) && egress.value.backoffPolicy == Some(Linear)
    ensures !p.NoRetry? ==> p.delay == egress.value.backoffDelay > 0
  {
    if HasUsableBackoff(egress) then
      var delay := egress.value.backoffDelay;
      match egress.value.backoffPolicy.value
      case Linear => LinearBackoff(delay)
      case Exponential | Unrecognized => ExponentialBackoff(delay)
    else
      NoRetry
  }

  /** `delay * retryCount` in `long` arithmetic. */
  function LinearRetryPolicy(retryCount: Int32, delay: Int64): (r: Int64)
    ensures InLongRange(delay * retryCount) ==> r == delay * retryCount
  {
    LongMul(delay, retryCount)
  }

  /** `delay * Math.round(Math.pow(2, retryCount))` in `long` arithmetic. */
  function ExponentialRetryPolicy(retryCount: Int32, delay: Int64): (r: Int64)
    ensures 0 <= retryCount <= 62 && InLongRange(delay * Pow2(retryCount)) ==> r == delay * Pow2(retryCount)
  {
    LongMul(delay, MathRoundPow2(retryCount))
  }

  /** Applies a retry policy to a retry count. */
  function Delay(p: RetryPolicy, retryCount: Int32): (r: Int64)
    ensures p.NoRetry? ==> r == 0
    ensures p.LinearBackoff? && InLongRange(p.delay * retryCount) ==> r == p.delay * retryCount
    ensures p.ExponentialBackoff? && 0 <= retryCount <= 62 && InLongRange(p.delay * Pow2(retryCount)) ==>
              r == p.delay * Pow2(retryCount)
  {
    match p
    case NoRetry => 0
    case LinearBackoff(d) => LinearRetryPolicy(retryCount, d)
    case ExponentialBackoff(d) => ExponentialRetryPolicy(retryCount, d)
  }

  /** Linear backoff waits `backoffDelay * retryCount`: nothing before the first retry, then a positive delay. */
  lemma LinearDelay(egress: EgressConfig, retryCount: Int32)
    requires egress.backoffPolicy == Some(Linear) && egress.backoffDelay > 0
    requires 0 <= retryCount && InLongRange(egress.backoffDelay * retryCount)
    ensures Delay(ComputeRetryPolicy(Some(egress)), retryCount) == egress.backoffDelay * retryCount
    ensures retryCount == 0 ==> Delay(ComputeRetryPolicy(Some(egress)), retryCount) == 0
    ensures retryCount >= 1 ==> Delay(ComputeRetryPolicy(Some(egress)), retryCount) > 0
  {
  }

  /** Exponential backoff, and the catch-all for unknown policy numbers, waits `backoffDelay * 2^retryCount`. */
  lemma ExponentialDelay(egress: EgressConfig, retryCount: Int32)
    requires egress.backoffPolicy.Some? && egress.backoffPolicy.value != Linear && egress.backoffDelay > 0
    requires 0 <= retryCount <= 62 && InLongRange(egress.backoffDelay * Pow2(retryCount))
    ensures Delay(ComputeRetryPolicy(Some(egress)), retryCount) == egress.backoffDelay * Pow2(retryCount)
    ensures Delay(ComputeRetryPolicy(Some(egress)), retryCount) > 0
  {
  }

  /** While no overflow occurs, each further retry of an exponential policy waits twice as long. */
  lemma {:induction false} ExponentialDoubles(egress: EgressConfig, retryCount: Int32)
    requires egress.backoffPolicy.Some? && egress.backoffPolicy.value != Linear && egress.backoffDelay > 0
    requires 0 <= retryCount < 62 && InLongRange(egress.backoffDelay * Pow2(retryCount + 1))
    ensures Delay(ComputeRetryPolicy(Some(egress)), retryCount + 1)
         == 2 * Delay(ComputeRetryPolicy(Some(egress)), retryCount)
  {
    var d := egress.backoffDelay;
    assert d * Pow2(retryCount + 1) == 2 * (d * Pow2(retryCount));
    ExponentialDelay(egress, retryCount);
    ExponentialDelay(egress, retryCount + 1);
  }

  /** While no overflow occurs, a later retry never waits less than an earlier one. */
  lemma {:induction false} DelayMonotone(egress: EgressConfig, m: Int32, n: Int32)
    requires HasUsableBackoff(Some(egress))
    requires 0 <= m <= n
    requires egress.backoffPolicy == Some(Linear) ==> InLongRange(egress.backoffDelay * n)
    requires egress.backoffPolicy != Some(Linear) ==> n <= 62 && InLongRange(egress.backoffDelay * Pow2(n))
    ensures Delay(ComputeRetryPolicy(Some(egress)), m) <= Delay(ComputeRetryPolicy(Some(egress)), n)
  {
    var d := egress.backoffDelay;
    if egress.backoffPolicy == Some(Linear) {
      MulMonotone(d, m, n);
      LinearDelay(egress, m);
      LinearDelay(egress, n);
    } else {
      Pow2Monotone(m, n);
      MulMonotone(d, Pow2(m), Pow2(n));
      ExponentialDelay(egress, m);
      ExponentialDelay(egress, n);
    }
  }

  /**
   * The policy is zero for every retry count exactly when there is no config,
   * no policy or no positive delay.
   */
  lemma NeverWaitsIffNoUsableBackoff(egress: Option<EgressConfig>)
    ensures (forall n: Int32 :: Delay(ComputeRetryPolicy(egress), n) == 0) <==> !HasUsableBackoff(egress)
  {
    if HasUsableBackoff(egress) {
      var e := egress.value;
      if e.backoffPolicy == Some(Linear) {
        LinearDelay(e, 1);
        assert Delay(ComputeRetryPolicy(egress), 1) != 0;
      } else {
        ExponentialDelay(e, 0);
        assert Delay(ComputeRetryPolicy(egress), 0) != 0;
      }
    }
  }

  /** Past the `long` range the product wraps: delay 2 at retry count 63 gives -2. */
  lemma ExponentialWrapsAt63()
    ensures Delay(ComputeRetryPolicy(Some(EgressConfig(None, 0, Some(Exponential), 2))), 63) == -2
  {
  }

  /**
   * From retry count 63 on the exponential factor saturates at `Long.MAX_VALUE`
   * and the product wraps: an even delay turns into its own negation, an odd
   * delay into a value close to `Long.MAX_VALUE`.
   */
  lemma ExponentialWrapsPast62(d: Int64, n: Int32)
    requires d > 0 && n > 62
    ensures Delay(ExponentialBackoff(d), n) == if d % 2 == 0 then -d else LongMax + 1 - d
  {
    var k := d / 2;
    assert MathRoundPow2(n) == LongMax;
    if d % 2 == 0 {
      assert d * LongMax == k * 0x1_0000_0000_0000_0000 - d;
      WrapLongShift(k, -d);
    } else {
      assert d * LongMax == k * 0x1_0000_0000_0000_0000 + 0x8000_0000_0000_0000 - d;
      WrapLongShift(k, 0x8000_0000_0000_0000 - d);
    }
  }
}
