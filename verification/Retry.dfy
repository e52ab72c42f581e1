/** Retrying with exponential backoff. Durations are real numbers: the source's float64
    rounding and its final truncation to nanoseconds are not modelled. */
module Retry {
  import opened Common

  datatype Policy = Policy(maxAttempts: int, initial: real, max: real, multiplier: real, jitter: real)
  {
    /** What the closed form asks of a policy. */
    predicate Sensible() {
      0.0 <= initial <= max && multiplier >= 1.0 && 0.0 <= jitter <= 1.0
    }

    /** The number of calls Do makes when nothing ends it early. */
    function Attempts(): nat { if maxAttempts < 0 then 0 else maxAttempts + 1 }
  }

  function Pow(b: real, e: nat): real { if e == 0 then 1.0 else b * Pow(b, e - 1) }

  function Min(a: real, b: real): real { if a <= b then a else b }

  // ---------------------------------------------------------------- the interval

  /** Whether the loop has left at the cap by a given attempt. */
  predicate Clamped(p: Policy, attempt: nat)
    decreases attempt, 0
  {
    attempt > 1 && (Clamped(p, attempt - 1) || Base(p, attempt - 1) * p.multiplier > p.max)
  }

  /** The interval before jitter, for any policy. */
  function Base(p: Policy, attempt: nat): real
    decreases attempt, 1
  {
    if attempt <= 1 then p.initial
    else if Clamped(p, attempt) then p.max
    else Base(p, attempt - 1) * p.multiplier
  }

  lemma MulUp(x: real, m: real, y: real)
    requires x > y >= 0.0 && m >= 1.0
    ensures x * m > y
  {
  }

  lemma RealMulMono(x: real, y: real, m: real)
    requires x <= y && m >= 0.0
    ensures x * m <= y * m
  {
  }

  lemma {:induction false} PowAtLeastOne(b: real, e: nat)
    requires b >= 1.0
    ensures Pow(b, e) >= 1.0
  {
    if e > 0 {
      PowAtLeastOne(b, e - 1);
      RealMulMono(1.0, Pow(b, e - 1), b);
    }
  }

  /** The geometric progression the intervals follow up to the cap. */
  function Geometric(p: Policy, attempt: nat): real
    requires attempt >= 1
  {
    p.initial * Pow(p.multiplier, attempt - 1)
  }

  lemma GeometricStep(p: Policy, attempt: nat)
    requires attempt > 1
    ensures Geometric(p, attempt) == Geometric(p, attempt - 1) * p.multiplier
  {
    Reassociate(p.initial, Pow(p.multiplier, attempt - 2), p.multiplier);
  }

  /** The closed form. */
  lemma {:induction false} BaseClosedForm(p: Policy, attempt: nat)
    requires p.Sensible() && attempt >= 1
    ensures Base(p, attempt) == Min(Geometric(p, attempt), p.max)
    ensures Clamped(p, attempt) ==> Geometric(p, attempt) > p.max
  {
    if attempt == 1 {
      assert Geometric(p, 1) == p.initial;
    } else {
      BaseClosedForm(p, attempt - 1);
      BaseStep(p, attempt, Geometric(p, attempt - 1));
      GeometricStep(p, attempt);
    }
  }

  lemma BaseStep(p: Policy, attempt: nat, x: real)
    requires p.Sensible() && attempt > 1 && Base(p, attempt - 1) == Min(x, p.max) && (Clamped(p, attempt - 1) ==>
        x > p.max)
    ensures Base(p, attempt) == Min(x * p.multiplier, p.max)
    ensures Clamped(p, attempt) ==> x * p.multiplier > p.max
  {
    OneRound(Clamped(p, attempt - 1), Base(p, attempt - 1), x, p.multiplier, p.max);
  }

  /** One round of the loop on a value that is clamped or not yet. */
  lemma OneRound(was: bool, base: real, x: real, m: real, max: real)
    requires max >= 0.0 && m >= 1.0 && base == Min(x, max) && (was ==> x > max)
    ensures var now := was || base * m > max;
      (if now then max else base * m) == Min(x * m, max) && (now ==> x * m > max)
  {
    RealMulMono(1.0, m, max);
    if x > max {
      MulUp(x, m, max);
    }
  }

  lemma Reassociate(a: real, b: real, c: real)
    ensures (a * b) * c == a * (c * b)
  {
  }

  /** Later attempts never wait less, before jitter. */
  lemma {:induction false} BaseMonotone(p: Policy, attempt: nat)
    requires p.Sensible()
    ensures 0.0 <= Base(p, attempt) <= Base(p, attempt + 1) <= p.max
  {
    if attempt >= 1 {
      BaseMonotone(p, attempt - 1);
      RealMulMono(1.0, p.multiplier, Base(p, attempt));
    }
  }

  /** Without any assumption on the policy, the cap before jitter fails only for a first
      interval that is itself above it. */
  lemma {:induction false} CapBeforeJitter(p: Policy, attempt: nat)
    requires attempt >= 1
    ensures Base(p, attempt) <= p.max <==> attempt >= 2 || p.initial <= p.max
  {
  }

  function Jittered(p: Policy, base: real, rand: real): real {
    if p.jitter > 0.0 then
      var jitterRange := base * p.jitter;
      (base - jitterRange / 2.0) + rand * jitterRange
    else base
  }

  /** `rand` is the value of rand.Float64. */
  method NextInterval(p: Policy, attempt: int, rand: real) returns (wait: real)
    ensures wait == if attempt <= 0 then 0.0 else Jittered(p, Base(p, attempt), rand)
  {
    if attempt <= 0 {
      return 0.0;
    }
    var interval := p.initial;
    var i := 1;
    while i < attempt
      invariant 1 <= i <= attempt && interval == Base(p, i) && !Clamped(p, i)
    {
      interval := interval * p.multiplier;
      i := i + 1;
      if interval > p.max {
        interval := p.max;
        StaysClamped(p, i, attempt);
        break;
      }
    }
    if p.jitter > 0.0 {
      var jitterRange := interval * p.jitter;
      var minJitter := interval - jitterRange / 2.0;
      interval := minJitter + rand * jitterRange;
    }
    wait := interval;
  }

  /** Leaving the loop at the cap loses nothing. */
  lemma {:induction false} StaysClamped(p: Policy, i: nat, attempt: nat)
    requires i <= attempt && Clamped(p, i)
    ensures Clamped(p, attempt) && Base(p, attempt) == p.max
  {
    if i < attempt {
      StaysClamped(p, i, attempt - 1);
    }
  }

  function Least(p: Policy, base: real): real { base * (1.0 - p.jitter / 2.0) }

  function Most(p: Policy, base: real): real { base * (1.0 + p.jitter / 2.0) }

  /** Jitter moves an interval by at most half its fraction. */
  lemma JitterBounds(p: Policy, base: real, rand: real)
    requires base >= 0.0 && 0.0 <= p.jitter <= 1.0 && 0.0 <= rand < 1.0
    ensures Least(p, base) <= Jittered(p, base, rand) <= Most(p, base)
  {
    RealMulMono(0.0, base, p.jitter);
    RealMulMono(0.0, rand, base * p.jitter);
    RealMulMono(rand, 1.0, base * p.jitter);
    assert base * (p.jitter / 2.0) == base * p.jitter / 2.0;
  }

  lemma LeastMostMonotone(p: Policy, base: real, cap: real)
    requires 0.0 <= base <= cap && 0.0 <= p.jitter <= 1.0
    ensures 0.0 <= Least(p, base) && 0.0 <= Most(p, base) <= Most(p, cap)
  {
    NonNegative(base, 1.0 - p.jitter / 2.0);
    NonNegative(base, 1.0 + p.jitter / 2.0);
    RealMulMono(base, cap, 1.0 + p.jitter / 2.0);
  }

  lemma NonNegative(a: real, b: real)
    requires a >= 0.0 && b >= 0.0
    ensures a * b >= 0.0
  {
  }

  /** MaxInterval bounds the jittered interval, whatever the random number, exactly when it
      leaves room for half the jitter. */
  lemma {:induction false} CapUnderJitter(p: Policy, attempt: nat)
    requires p.Sensible() && attempt >= 1
    ensures (forall rand: real :: 0.0 <= rand < 1.0 ==> Jittered(p, Base(p, attempt), rand) <= p.max)
      <==> Most(p, Base(p, attempt)) <= p.max
  {
    var base := Base(p, attempt);
    BaseMonotone(p, attempt);
    if Most(p, base) <= p.max {
      forall rand: real | 0.0 <= rand < 1.0 ensures Jittered(p, base, rand) <= p.max {
        JitterBounds(p, base, rand);
      }
    } else {
      var rand := Overshoot(p, base);
    }
  }

  lemma Overshoot(p: Policy, base: real) returns (rand: real)
    requires 0.0 <= base <= p.max && 0.0 <= p.jitter <= 1.0 && Most(p, base) > p.max
    ensures 0.0 <= rand < 1.0 && Jittered(p, base, rand) > p.max
  {
    var width := base * p.jitter;
    assert base * (1.0 + p.jitter / 2.0) == base + width / 2.0;
    var excess := base + width / 2.0 - p.max;
    assert 0.0 < excess <= width / 2.0;
    var share := excess / (2.0 * width);
    Share(excess, width);
    rand := 1.0 - share;
    assert rand * width == width - share * width;
  }

  lemma Share(excess: real, width: real)
    requires 0.0 < excess <= width / 2.0
    ensures 0.0 < excess / (2.0 * width) <= 1.0 / 4.0
    ensures excess / (2.0 * width) * width == excess / 2.0
  {
    var share := excess / (2.0 * width);
    assert share * (2.0 * width) == 2.0 * (share * width);
    Ratio(excess, 2.0 * width);
  }

  lemma Ratio(a: real, b: real)
    requires 0.0 < a <= b / 4.0
    ensures 0.0 < a / b <= 1.0 / 4.0
  {
  }

  // ---------------------------------------------------------------- the loop

  /** How one call of f ends. */
  datatype Outcome = Success | Fatal(err: int) | Transient(err: int)

  datatype Verdict = Done | Stopped(err: int) | Cancelled | Exhausted(last: Option<int>)

  function WaitBefore(p: Policy, rand: nat -> real): nat -> real { (a: nat) => Jittered(p, Base(p, a), rand(a)) }

  /** The waiting requested before the first n attempts. */
  function Total(wait: nat -> real, n: nat): real {
    if n <= 1 then 0.0 else Total(wait, n - 1) + wait(n - 1)
  }

  function LastError(calls: nat, outcomes: nat -> Outcome): Option<int> {
    if calls == 0 || outcomes(calls - 1).Success? then None else Some(outcomes(calls - 1).err)
  }

  /** `cancelled(a)` says that the context ends the wait before attempt a. The number of
      attempts begun counts one that a cancellation stops before its call. */
  method Do(p: Policy, outcomes: nat -> Outcome, cancelled: nat -> bool, rand: nat -> real)
    returns (verdict: Verdict, calls: nat, waited: real)
    ensures calls <= 1 + p.maxAttempts || calls == 0
    ensures forall a :: 0 <= a < calls - 1 ==> outcomes(a).Transient?
    ensures forall a :: 0 < a < calls ==> !cancelled(a)
    ensures verdict.Done? <==> calls > 0 && outcomes(calls - 1).Success?
    ensures verdict.Stopped? <==> calls > 0 && outcomes(calls - 1).Fatal?
    ensures verdict.Stopped? ==> outcomes(calls - 1) == Fatal(verdict.err)
    ensures verdict.Cancelled? ==> 0 < calls <= p.maxAttempts && cancelled(calls)
    ensures verdict.Exhausted? ==> calls == (if p.maxAttempts < 0 then 0 else 1 + p.maxAttempts)
    ensures verdict.Exhausted? ==> verdict.last == LastError(calls, outcomes)
    ensures verdict.Exhausted? && calls > 0 ==> outcomes(calls - 1).Transient?
    ensures waited == Total(WaitBefore(p, rand), if verdict.Cancelled? then calls + 1 else calls)
  {
    calls, waited := 0, 0.0;
    var lastErr: Option<int> := None;
    for attempt := 0 to p.Attempts()
      invariant calls == attempt && waited == Total(WaitBefore(p, rand), calls)
      invariant forall a :: 0 <= a < calls ==> outcomes(a).Transient?
      invariant forall a :: 0 < a < calls ==> !cancelled(a)
      invariant lastErr == LastError(calls, outcomes)
    {
      if attempt > 0 {
        var wait := NextInterval(p, attempt, rand(attempt));
        waited := waited + wait;
        if cancelled(attempt) {
          verdict := Cancelled;
          return;
        }
      }
      var err := outcomes(attempt);
      calls := calls + 1;
      if err.Success? {
        verdict := Done;
        return;
      }
      if err.Fatal? {
        verdict := Stopped(err.err);
        return;
      }
      lastErr := Some(err.err);
    }
    verdict := Exhausted(lastErr);
  }

  /** The wait before an attempt, in closed form: the geometric interval under the cap, spread
      by the jitter around itself. */
  lemma WaitIs(p: Policy, rand: nat -> real, attempt: nat)
    requires p.Sensible() && attempt >= 1
    ensures WaitBefore(p, rand)(attempt)
         == Min(Geometric(p, attempt), p.max) * (1.0 - p.jitter / 2.0 + rand(attempt) * p.jitter)
  {
    BaseClosedForm(p, attempt);
    JitteredIs(p, Base(p, attempt), rand(attempt));
  }

  lemma JitteredIs(p: Policy, base: real, rand: real)
    requires p.jitter >= 0.0
    ensures Jittered(p, base, rand) == base * (1.0 - p.jitter / 2.0 + rand * p.jitter)
  {
    Spread(base, p.jitter, rand);
  }

  lemma Spread(base: real, jitter: real, rand: real)
    ensures base - base * jitter / 2.0 + rand * (base * jitter) == base * (1.0 - jitter / 2.0 + rand * jitter)
    ensures jitter == 0.0 ==> base == base * (1.0 - jitter / 2.0 + rand * jitter)
  {
    assert rand * (base * jitter) == base * (rand * jitter);
    assert base * (1.0 - jitter / 2.0 + rand * jitter) == base - base * (jitter / 2.0) + base * (rand * jitter);
    assert base * (jitter / 2.0) == base * jitter / 2.0;
  }

  lemma {:induction false} WaitBounds(p: Policy, attempt: nat, rand: real)
    requires p.Sensible() && attempt >= 1 && 0.0 <= rand < 1.0
    ensures 0.0 <= Jittered(p, Base(p, attempt), rand) <= Most(p, p.max)
  {
    BaseMonotone(p, attempt);
    JitterBounds(p, Base(p, attempt), rand);
    LeastMostMonotone(p, Base(p, attempt), p.max);
  }

  function Times(n: nat, a: real): real { if n == 0 then 0.0 else Times(n - 1, a) + a }

  lemma {:induction false} TimesIsProduct(n: nat, a: real)
    ensures Times(n, a) == n as real * a
  {
    if n > 0 {
      TimesIsProduct(n - 1, a);
      assert ((n - 1) as real + 1.0) * a == (n - 1) as real * a + a;
    }
  }

  lemma {:induction false} TimesMonotone(n: nat, k: nat, a: real)
    requires n <= k && a >= 0.0
    ensures 0.0 <= Times(n, a) <= Times(k, a)
    decreases k
  {
    if n < k {
      TimesMonotone(n, k - 1, a);
    } else if n > 0 {
      TimesMonotone(n - 1, n - 1, a);
    }
  }

  lemma {:induction false} TotalBound(wait: nat -> real, n: nat, most: real)
    requires n >= 1 && forall a :: 1 <= a < n ==> 0.0 <= wait(a) <= most
    ensures 0.0 <= Total(wait, n) <= Times(n - 1, most)
  {
    if n > 1 {
      TotalBound(wait, n - 1, most);
    }
  }

  /** However Do ends, it has asked for at most MaxAttempts waits, each at most the cap and
      half its jitter. */
  lemma {:induction false} TotalWaitBounded(p: Policy, n: nat, rand: nat -> real)
    requires p.Sensible() && p.maxAttempts >= 0 && n <= 1 + p.maxAttempts
    requires forall a :: 0.0 <= rand(a) < 1.0
    ensures 0.0 <= Total(WaitBefore(p, rand), n) <= p.maxAttempts as real * Most(p, p.max)
  {
    LeastMostMonotone(p, p.max, p.max);
    TimesIsProduct(p.maxAttempts, Most(p, p.max));
    TimesMonotone(if n == 0 then 0 else n - 1, p.maxAttempts, Most(p, p.max));
    if n >= 1 {
      forall a | 1 <= a < n ensures 0.0 <= WaitBefore(p, rand)(a) <= Most(p, p.max) {
        WaitBounds(p, a, rand(a));
      }
      TotalBound(WaitBefore(p, rand), n, Most(p, p.max));
    }
  }
}
