// app/domain/retry_policy.py: bounded retries and capped geometric backoff with jitter.
module RetryPolicies {
  import opened Wrappers

  function Power(m: real, k: nat): real {
    if k == 0 then 1.0 else m * Power(m, k - 1)
  }

  datatype RetryPolicy = RetryPolicy(
    maxRetries: int,
    initialBackoff: int,
    maxBackoff: int,
    multiplier: real)
  {
    predicate ShouldRetry(retryCount: int) {
      retryCount < maxRetries
    }

    // The delay before the cap and the jitter.
    function Uncapped(k: nat): real {
      initialBackoff as real * Power(multiplier, k)
    }

    // The delay that grows by the same amount each time, as the first step does.
    function Linear(k: nat): real {
      initialBackoff as real * (1.0 + k as real * (multiplier - 1.0))
    }

    function Backoff(k: nat): real {
      if Uncapped(k) <= maxBackoff as real then Uncapped(k) else maxBackoff as real
    }

    function Delay(k: nat, u: Unit): real {
      Backoff(k) + Backoff(k) * 0.1 * u
    }

    // Delays are never negative.
    predicate Sane() {
      initialBackoff >= 0 && maxBackoff >= 0 && multiplier >= 0.0
    }

    method NextRetryAt(retryCount: nat, now: Option<Time>, wall: Time, u: Unit) returns (at: Time)
      ensures at == (if now.Some? then now.value else wall) + Delay(retryCount, u)
    {
      var from := if now.Some? then now.value else wall;
      var factor, i := 1.0, 0;
      while i < retryCount
        invariant i <= retryCount && factor == Power(multiplier, i)
      {
        factor := multiplier * factor;
        i := i + 1;
      }
      var delay := initialBackoff as real * factor;
      if delay > maxBackoff as real {
        delay := maxBackoff as real;
      }
      var jitter := delay * 0.1 * u;
      delay := delay + jitter;
      return from + delay;
    }
  }

  const FALLBACK_RETRY_POLICY := RetryPolicy(2, 10, 600, 2.0)

  // How many fallback sends one message can get: the policy is asked after the failure is
  // counted, so maxRetries is the number of sends, and the first send is never refused.
  function MaxSends(p: RetryPolicy): nat {
    if p.maxRetries < 1 then 1 else p.maxRetries
  }

  lemma Scaled(d: real, a: real, b: real)
    requires d >= 0.0 && 0.0 <= a <= b
    ensures 0.0 <= d * a <= d * b
  {
  }

  lemma {:induction false} PowerNonNegative(m: real, k: nat)
    requires m >= 0.0
    ensures Power(m, k) >= 0.0
    ensures m >= 1.0 ==> Power(m, k) >= 1.0
  {
    if k > 0 {
      PowerNonNegative(m, k - 1);
      Scaled(Power(m, k - 1), 0.0, m);
      if m >= 1.0 {
        Scaled(Power(m, k - 1), 1.0, m);
      }
    }
  }

  lemma BackoffNonNegative(p: RetryPolicy, k: nat)
    requires p.Sane()
    ensures p.Backoff(k) >= 0.0
  {
    PowerNonNegative(p.multiplier, k);
  }

  // The delay before retry k is the geometric one or the cap, whichever is smaller, and the draw u
  // adds the share u of a tenth of it.
  lemma DelaySpelledOut(p: RetryPolicy, k: nat, u: Unit)
    ensures p.Backoff(k) <= p.maxBackoff as real && p.Backoff(k) <= p.initialBackoff as real * Power(p.multiplier, k)
    ensures p.Backoff(k) in {p.maxBackoff as real, p.initialBackoff as real * Power(p.multiplier, k)}
    ensures p.Delay(k, u) == p.Backoff(k) * (1.0 + u / 10.0)
    ensures Power(p.multiplier, 0) == 1.0 && Power(p.multiplier, k + 1) == Power(p.multiplier, k) * p.multiplier
  {
    assert p.Backoff(k) * 0.1 * u == p.Backoff(k) * (u / 10.0);
  }

  // The shipped policy allows two fallback sends, the second at least ten seconds after the first
  // has failed and eleven at most.
  lemma ShippedDelays(u: Unit)
    ensures FALLBACK_RETRY_POLICY.ShouldRetry(1) && !FALLBACK_RETRY_POLICY.ShouldRetry(2)
    ensures MaxSends(FALLBACK_RETRY_POLICY) == 2
    ensures FALLBACK_RETRY_POLICY.Delay(0, u) == 10.0 + u
    ensures FALLBACK_RETRY_POLICY.Delay(1, u) == 20.0 + 2.0 * u
    ensures FALLBACK_RETRY_POLICY.maxBackoff == 600
  {
    assert Power(2.0, 1) == 2.0;
  }

  // Jitter stretches a delay by at most a tenth, so no delay exceeds 1.1 times the cap.
  lemma JitterBounds(p: RetryPolicy, k: nat, u: Unit)
    requires p.Sane()
    ensures 0.0 <= p.Backoff(k) <= p.Delay(k, u) <= 1.1 * p.Backoff(k) <= 1.1 * p.maxBackoff as real
  {
    BackoffNonNegative(p, k);
    Scaled(p.Backoff(k), 0.1 * u, 0.1);
  }

  lemma Enlarged(a: real, d: real)
    requires a >= 1.0 && d >= 0.0
    ensures a * d >= d
  {
  }

  lemma Quotient(cap: real, x: real, k: real)
    requires x > 0.0 && k >= cap / x
    ensures k * x >= cap
  {
  }

  lemma Grows(p: RetryPolicy, k: nat)
    requires p.Sane()
    ensures p.Uncapped(k + 1) == p.multiplier * p.Uncapped(k)
    ensures p.multiplier >= 1.0 ==> p.Uncapped(k) <= p.Uncapped(k + 1)
  {
    PowerNonNegative(p.multiplier, k);
    var a, b := p.initialBackoff as real, Power(p.multiplier, k);
    assert a * (p.multiplier * b) == p.multiplier * (a * b);
    Scaled(a, 0.0, b);
    if p.multiplier >= 1.0 {
      Scaled(a * b, 1.0, p.multiplier);
    }
  }

  // Without jitter delays never shrink.
  lemma {:induction false} BackoffMonotone(p: RetryPolicy, j: nat, k: nat)
    requires p.Sane() && p.multiplier >= 1.0 && j <= k
    ensures p.Backoff(j) <= p.Backoff(k)
    decreases k
  {
    if j < k {
      BackoffMonotone(p, j, k - 1);
      Grows(p, k - 1);
    }
  }

  lemma BernoulliStep(x: real, n: real, power: real)
    requires x >= 0.0 && n >= 0.0 && power >= 1.0 + n * x
    ensures (1.0 + x) * power >= 1.0 + (n + 1.0) * x
  {
    var low := 1.0 + n * x;
    Scaled(x, 0.0, x);
    Scaled(n, 0.0, x * x);
    Scaled(n, 0.0, x);
    Scaled(1.0 + x, low, power);
    assert (1.0 + x) * low == 1.0 + (n + 1.0) * x + n * (x * x);
  }

  lemma {:induction false} Bernoulli(m: real, k: nat)
    requires m >= 1.0
    ensures Power(m, k) >= 1.0 + k as real * (m - 1.0)
  {
    if k > 0 {
      Bernoulli(m, k - 1);
      BernoulliStep(m - 1.0, (k - 1) as real, Power(m, k - 1));
    }
  }

  lemma LinearBelowGeometric(p: RetryPolicy, k: nat)
    requires p.Sane() && p.multiplier >= 1.0
    ensures p.Linear(k) <= p.Uncapped(k)
  {
    Bernoulli(p.multiplier, k);
    Scaled(k as real, 0.0, p.multiplier - 1.0);
    Scaled(p.initialBackoff as real, 1.0 + k as real * (p.multiplier - 1.0), Power(p.multiplier, k));
  }

  // The cap is reached at the latest when linear growth would reach it, and kept from then on.
  lemma CapReached(p: RetryPolicy, k: nat, j: nat)
    requires p.Sane() && p.multiplier >= 1.0 && k <= j
    requires p.Linear(k) >= p.maxBackoff as real
    ensures p.Backoff(j) == p.maxBackoff as real
  {
    LinearBelowGeometric(p, k);
    BackoffMonotone(p, k, j);
  }

  lemma LinearReachesCap(p: RetryPolicy, k: nat)
    requires p.initialBackoff > 0 && p.maxBackoff >= 0
    requires k as real * (p.multiplier - 1.0) >= p.maxBackoff as real
    ensures p.Linear(k) >= p.maxBackoff as real
  {
    Enlarged(p.initialBackoff as real, 1.0 + k as real * (p.multiplier - 1.0));
  }

  // With a multiplier above one such a k exists, so backoff is capped from some retry on.
  lemma CapIsReachedEventually(p: RetryPolicy) returns (k: nat)
    requires p.initialBackoff > 0 && p.maxBackoff >= 0 && p.multiplier > 1.0
    ensures forall j: nat :: k <= j ==> p.Backoff(j) == p.maxBackoff as real
  {
    var x, cap := p.multiplier - 1.0, p.maxBackoff as real;
    k := (cap / x).Floor + 1;
    Quotient(cap, x, k as real);
    LinearReachesCap(p, k);
    forall j: nat | k <= j
      ensures p.Backoff(j) == cap
    {
      CapReached(p, k, j);
    }
  }

  ghost predicate Ordered(p: RetryPolicy, k: nat, u: Unit, v: Unit) {
    p.Delay(k, u) <= p.Delay(k + 1, v)
  }

  // Jittered delays k and k + 1 can never come out in the wrong order exactly when the
  // undisturbed delay grows by at least a tenth.
  lemma JitteredOrder(p: RetryPolicy, k: nat)
    requires p.Sane()
    ensures (forall u: Unit, v: Unit :: Ordered(p, k, u, v))
            <==> 1.1 * p.Backoff(k) <= p.Backoff(k + 1)
  {
    if forall u: Unit, v: Unit :: Ordered(p, k, u, v) {
      assert Ordered(p, k, 1.0, 0.0);
    }
    if 1.1 * p.Backoff(k) <= p.Backoff(k + 1) {
      forall u: Unit, v: Unit
        ensures Ordered(p, k, u, v)
      {
        JitterBounds(p, k, u);
        JitterBounds(p, k + 1, v);
      }
    }
  }

  // A multiplier of 1.1 or more keeps the order as long as the next delay is not capped.
  lemma OrderedBelowCap(p: RetryPolicy, k: nat, u: Unit, v: Unit)
    requires p.Sane() && p.multiplier >= 1.1 && p.Uncapped(k + 1) <= p.maxBackoff as real
    ensures p.Delay(k, u) <= p.Delay(k + 1, v)
  {
    Grows(p, k);
    PowerNonNegative(p.multiplier, k);
    Scaled(p.initialBackoff as real, 0.0, Power(p.multiplier, k));
    Scaled(p.Uncapped(k), 1.1, p.multiplier);
    assert p.Uncapped(k) * 1.1 <= p.Uncapped(k + 1);
    assert p.Uncapped(k) <= p.Uncapped(k + 1);
    JitteredOrder(p, k);
    assert Ordered(p, k, u, v);
  }

  // At the cap it does not: the shipped policy can wait 660 seconds and then 600.
  lemma DisorderedAtCap()
    ensures FALLBACK_RETRY_POLICY.Delay(6, 1.0) > FALLBACK_RETRY_POLICY.Delay(7, 0.0)
  {
    CapReached(FALLBACK_RETRY_POLICY, 59, 59);
    assert Power(2.0, 2) == 4.0;
    assert Power(2.0, 4) == 16.0;
    assert Power(2.0, 6) == 64.0;
    assert Power(2.0, 7) == 128.0;
  }

  // The wait required by retries lo, ..., hi - 1 together.
  function TotalBackoff(p: RetryPolicy, lo: nat, hi: nat): real
    decreases hi
  {
    if hi <= lo then 0.0 else TotalBackoff(p, lo, hi - 1) + p.Backoff(hi - 1)
  }

  lemma GeometricStep(a: real, m: real, x: real, total: real)
    requires total * (m - 1.0) == a * (x - 1.0)
    ensures (total + a * x) * (m - 1.0) == a * (m * x - 1.0)
  {
    assert a * x * (m - 1.0) == a * (m * x) - a * x;
  }

  lemma StillBelowCap(p: RetryPolicy, k: nat)
    requires p.Sane() && p.multiplier > 1.0 && p.Uncapped(k + 1) <= p.maxBackoff as real
    ensures p.Uncapped(k) <= p.maxBackoff as real
  {
    Grows(p, k);
  }

  // Below the cap the total is the geometric sum.
  lemma {:induction false} GeometricTotal(p: RetryPolicy, n: nat)
    requires p.Sane() && p.multiplier > 1.0
    requires n > 0 ==> p.Uncapped(n - 1) <= p.maxBackoff as real
    ensures TotalBackoff(p, 0, n) * (p.multiplier - 1.0) == p.initialBackoff as real * (Power(p.multiplier, n) - 1.0)
  {
    if n > 0 {
      if n > 1 {
        StillBelowCap(p, n - 2);
      }
      GeometricTotal(p, n - 1);
      GeometricStep(p.initialBackoff as real, p.multiplier, Power(p.multiplier, n - 1), TotalBackoff(p, 0, n - 1));
    }
  }
}
