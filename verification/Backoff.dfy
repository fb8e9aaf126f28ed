/**
 Delay arithmetic of a backoff policy.

 Floating point enters through an `Arithmetic` oracle, so every bound below holds
 for whatever rounding the platform performs. `Exact` instantiates the oracle with
 real arithmetic and nearest rounding; the growth results are about it.
 */
module Backoff {
  import opened Options
  import opened Time

  const MAX_INDEX: nat := 0xFFFF_FFFF

  datatype Strategy =
    | Immediate
    | Fixed(delay: Duration)
    | Uniform(min: Duration, max: Duration)
    | Exponential(initial: Duration, multiplier: real, max: Duration)

  datatype Jitter = NoJitter | Full | Bounded(ratio: real)

  datatype RetryAfter = PreferHint | AtLeastBackoff | IgnoreHint

  datatype Policy = Policy(strategy: Strategy, jitter: Jitter, retryAfter: RetryAfter, limit: Option<Duration>)

  datatype Request = Request(hint: Option<Duration>, jitterHint: bool)

  datatype Source = FromPolicy | FromHint | Merged

  datatype BackoffStep = BackoffStep(index: nat, base: Duration, effective: Duration, source: Source)

  /**
   `scale(d, x)` is the rounded, saturated product. `grow(d, m, n)` is the rounded
   `d * m^n`, or None when that is not finite or not representable.
   */
  datatype Arithmetic = Arithmetic(
    scale: (Duration, real) -> Duration,
    grow: (Duration, real, nat) -> Option<Duration>)

  /** The normalized samples one step may draw. */
  datatype Draws = Draws(base: real, jitter: real, hint: real)

  predicate Validated(p: Policy) {
    && (match p.strategy
        case Uniform(min, max) => min <= max
        case Exponential(initial, multiplier, max) => initial <= max && multiplier >= 1.0
        case _ => true)
    && (p.jitter.Bounded? ==> 0.0 <= p.jitter.ratio <= 1.0)
  }

  function Clamp(x: real): real {
    if x < 0.0 then 0.0 else if x > 1.0 then 1.0 else x
  }

  function Interpolate(a: Arithmetic, min: Duration, max: Duration, sample: real): (d: Duration)
    ensures min <= d
    ensures min <= max ==> d <= max
    ensures min < max && sample <= 0.0 ==> d == min
    ensures min < max && sample >= 1.0 ==> d == max
  {
    if min >= max then min
    else
      var ratio := Clamp(sample);
      if ratio == 0.0 then min
      else if ratio == 1.0 then max
      else Min(SaturatingAdd(min, a.scale(SaturatingSub(max, min), ratio)), max)
  }

  function ExponentialDelay(a: Arithmetic, initial: Duration, multiplier: real, max: Duration, index: nat): Duration {
    if index <= 1 || initial == 0 || multiplier == 1.0 then Min(initial, max)
    else GrownDelay(a, initial, multiplier, max, index)
  }

  /** The general formula, without the shortcuts of `ExponentialDelay`. */
  function GrownDelay(a: Arithmetic, initial: Duration, multiplier: real, max: Duration, index: nat): Duration {
    match a.grow(initial, multiplier, if index == 0 then 0 else index - 1)
    case None => max
    case Some(d) => Min(d, max)
  }

  function BaseDelay(p: Policy, a: Arithmetic, index: nat, sample: real): Duration {
    match p.strategy
    case Immediate => 0
    case Fixed(delay) => delay
    case Uniform(min, max) => Interpolate(a, min, max, sample)
    case Exponential(initial, multiplier, max) => ExponentialDelay(a, initial, multiplier, max, index)
  }

  function ApplyJitter(p: Policy, a: Arithmetic, base: Duration, sample: real): Duration {
    match p.jitter
    case NoJitter => base
    case Full => Interpolate(a, 0, base, sample)
    case Bounded(ratio) =>
      if ratio == 0.0 then base
      else
        var low := if 1.0 - ratio < 0.0 then 0.0 else 1.0 - ratio;
        Interpolate(a, a.scale(base, low), a.scale(base, 1.0 + ratio), sample)
  }

  function ResolveUncapped(p: Policy, a: Arithmetic, base: Duration, q: Request, index: nat,
      draws: Draws): BackoffStep {
    var policyDelay := ApplyJitter(p, a, base, draws.jitter);
    if q.hint.None? || p.retryAfter.IgnoreHint? then BackoffStep(index, base, policyDelay, FromPolicy)
    else
      var hinted := if q.jitterHint then ApplyJitter(p, a, q.hint.value, draws.hint) else q.hint.value;
      if p.retryAfter.PreferHint? then BackoffStep(index, base, hinted, FromHint)
      else BackoffStep(index, base, Max(policyDelay, hinted), Merged)
  }

  function Resolve(p: Policy, a: Arithmetic, base: Duration, q: Request, index: nat, draws: Draws): BackoffStep {
    var step := ResolveUncapped(p, a, base, q, index, draws);
    step.(effective := if p.limit.None? then step.effective else Min(step.effective, p.limit.value))
  }

  /** The step the policy selects at a one-based retry index. */
  function StepAt(p: Policy, a: Arithmetic, index: nat, q: Request, draws: Draws): BackoffStep {
    Resolve(p, a, BaseDelay(p, a, index, draws.base), q, index, draws)
  }

  /** Largest delay a strategy is configured to produce. */
  function ConfiguredMax(s: Strategy): Duration {
    match s
    case Immediate => 0
    case Fixed(delay) => delay
    case Uniform(_, max) => max
    case Exponential(_, _, max) => max
  }

  function Capped(p: Policy, d: Duration): Duration {
    if p.limit.None? then d else Min(d, p.limit.value)
  }

  /**
   Bounds of every step of a validated policy, whatever the request, the samples
   and the rounding: the base delay stays within the strategy, full jitter only
   shortens, an unjittered minimum hint survives up to the cap, a preferred
   unjittered hint is used up to the cap, and an absent or ignored hint has no influence.
   */
  lemma StepBounds(p: Policy, a: Arithmetic, index: nat, q: Request, draws: Draws)
    requires Validated(p)
    ensures var s := StepAt(p, a, index, q, draws);
            && s.index == index
            && s.base <= ConfiguredMax(p.strategy)
            && (p.strategy.Uniform? ==> p.strategy.min <= s.base)
            && (p.strategy.Exponential? && index <= 1 ==> s.base == p.strategy.initial)
            && s.effective == Capped(p, ResolveUncapped(p, a, s.base, q, index, draws).effective)
            && (p.limit.Some? ==> s.effective <= p.limit.value)
            && (s.source.FromPolicy? <==> q.hint.None? || p.retryAfter.IgnoreHint?)
            && (s.source.FromPolicy? && p.jitter.NoJitter? ==> s.effective == Capped(p, s.base))
            && (s.source.FromPolicy? && p.jitter.Full? ==> s.effective <= Capped(p, s.base))
            && (s.source.FromPolicy? ==> s == StepAt(p, a, index, Request(None, false), draws))
            && (q.hint.Some? && !q.jitterHint && p.retryAfter.AtLeastBackoff? ==>
                  s.effective >= Capped(p, q.hint.value))
            && (q.hint.Some? && !q.jitterHint && p.retryAfter.PreferHint? ==>
                  s.effective == Capped(p, q.hint.value))
            && (q.hint.Some? && p.retryAfter.AtLeastBackoff? ==>
                  s.effective >= StepAt(p, a, index, Request(None, false), draws).effective)
  {
  }

  // --- Exact arithmetic -----------------------------------------------------------

  function Pow(m: real, n: nat): real {
    if n == 0 then 1.0 else m * Pow(m, n - 1)
  }

  /** Nearest nanosecond. */
  function Round(x: real): int { (x + 0.5).Floor }

  function ExactScale(d: Duration, x: real): Duration {
    var v := d as real * x;
    if v < 0.0 || Round(v) >= MAX_DURATION then MAX_DURATION else Round(v)
  }

  /** A scaled delay, or None if it is not representable. */
  function Product(d: Duration, factor: real): Option<Duration> {
    var v := d as real * factor;
    if v < 0.0 || Round(v) > MAX_DURATION then None else Some(Round(v))
  }

  function ExactGrow(d: Duration, m: real, n: nat): Option<Duration> { Product(d, Pow(m, n)) }

  function Exact(): Arithmetic { Arithmetic(ExactScale, ExactGrow) }

  lemma {:induction false} PowGrows(m: real, n: nat, k: nat)
    requires m >= 1.0 && n <= k
    ensures 1.0 <= Pow(m, n) <= Pow(m, k)
    decreases k
  {
    if n < k {
      PowGrows(m, n, k - 1);
    } else if n > 0 {
      PowGrows(m, n - 1, n - 1);
      assert m * Pow(m, n - 1) >= 1.0 * 1.0;
    }
  }

  lemma {:induction false} PowOfOne(n: nat)
    ensures Pow(1.0, n) == 1.0
  {
    if n > 0 { PowOfOne(n - 1); }
  }

  lemma ScaledOrder(d: Duration, x: real, y: real)
    requires 0.0 <= x <= y
    ensures 0.0 <= d as real * x <= d as real * y
    ensures Round(d as real * x) <= Round(d as real * y)
  {
  }

  /** The shortcuts of `ExponentialDelay` agree with the general formula. */
  lemma ShortcutsAgree(initial: Duration, multiplier: real, max: Duration, index: nat)
    requires initial <= max && multiplier >= 1.0
    ensures ExponentialDelay(Exact(), initial, multiplier, max, index)
         == GrownDelay(Exact(), initial, multiplier, max, index)
  {
    var n := if index == 0 then 0 else index - 1;
    if multiplier == 1.0 { PowOfOne(n); }
    if n == 0 || initial == 0 || multiplier == 1.0 {
      assert initial as real * Pow(multiplier, n) == initial as real;
      assert Round(initial as real) == initial;
    }
  }

  /** None stands for an unrepresentable value. */
  function CutProduct(product: Option<Duration>, max: Duration): Duration {
    match product
    case None => max
    case Some(v) => Min(v, max)
  }

  /** Rounding and capping one grown delay. */
  function Capping(d: Duration, m: real, n: nat, max: Duration): Duration { CutProduct(ExactGrow(d, m, n), max) }

  /** A real delay rounded and cut at the maximum. */
  function Cut(v: real, max: Duration): int { if Round(v) > max then max else Round(v) }

  lemma CuttingOfValue(d: Duration, factor: real, max: Duration, v: real)
    requires v == d as real * factor && v >= 0.0
    ensures CutProduct(Product(d, factor), max) == Cut(v, max)
  {
  }

  lemma CutsOrdered(d: Duration, u: real, v: real, max: Duration)
    requires d <= max && d as real <= u <= v
    ensures d <= Cut(u, max) <= Cut(v, max)
  {
  }

  lemma ProductsOrdered(d: Duration, x: real, y: real, u: real, v: real)
    requires 1.0 <= x <= y && u == d as real * x && v == d as real * y
    ensures d as real <= u <= v
  {
    ScaledOrder(d, 1.0, x);
    ScaledOrder(d, x, y);
    assert d as real * 1.0 == d as real;
  }

  lemma CutProductsOrdered(d: Duration, p: real, q: real, max: Duration)
    requires d <= max && 1.0 <= p <= q
    ensures d <= CutProduct(Product(d, p), max) <= CutProduct(Product(d, q), max)
  {
    var u, v := d as real * p, d as real * q;
    ProductsOrdered(d, p, q, u, v);
    CuttingOfValue(d, p, max, u);
    CuttingOfValue(d, q, max, v);
    CutsOrdered(d, u, v, max);
  }

  /** Capping the rounded value of two ordered products keeps the order. */
  lemma GrownOrder(d: Duration, m: real, max: Duration, n: nat, k: nat)
    requires d <= max && m >= 1.0 && n <= k
    ensures d <= Capping(d, m, n, max) <= Capping(d, m, k, max)
  {
    PowGrows(m, 0, n);
    PowGrows(m, n, k);
    CutProductsOrdered(d, Pow(m, n), Pow(m, k), max);
  }

  /** The exact delay after `n` growth steps, before rounding. */
  function Growth(initial: Duration, multiplier: real, n: nat): real { initial as real * Pow(multiplier, n) }

  lemma CappingOfGrowth(initial: Duration, multiplier: real, n: nat, max: Duration)
    requires multiplier >= 1.0
    ensures Capping(initial, multiplier, n, max) == Cut(Growth(initial, multiplier, n), max)
  {
    var factor := Pow(multiplier, n);
    PowGrows(multiplier, 0, n);
    ScaledOrder(initial, 0.0, factor);
    CuttingOfValue(initial, factor, max, Growth(initial, multiplier, n));
  }

  /**
   The closed form: from the first index on the delay is the initial one times the multiplier to
   the power of the retries before this one, rounded, and the maximum once that is beyond it.
   */
  lemma ExponentialExact(initial: Duration, multiplier: real, max: Duration, index: nat)
    requires initial <= max && multiplier >= 1.0 && index >= 1
    ensures var grown := Round(Growth(initial, multiplier, index - 1));
            ExponentialDelay(Exact(), initial, multiplier, max, index) == if grown <= max then grown else max
  {
    ShortcutsAgree(initial, multiplier, max, index);
    CappingOfGrowth(initial, multiplier, index - 1, max);
    assert GrownDelay(Exact(), initial, multiplier, max, index) == Capping(initial, multiplier, index - 1, max);
  }

  /** Growth: the delay never shrinks with the index, and once at the maximum it stays there. */
  lemma ExponentialGrowth(initial: Duration, multiplier: real, max: Duration, i: nat, j: nat)
    requires initial <= max && multiplier >= 1.0 && i <= j
    ensures var early := ExponentialDelay(Exact(), initial, multiplier, max, i);
            var late := ExponentialDelay(Exact(), initial, multiplier, max, j);
            initial <= early <= late <= max && (early == max ==> late == max)
  {
    ShortcutsAgree(initial, multiplier, max, i);
    ShortcutsAgree(initial, multiplier, max, j);
    GrownOrder(initial, multiplier, max, if i == 0 then 0 else i - 1, if j == 0 then 0 else j - 1);
  }

  lemma ScalesUp(d: Duration, x: real, y: real)
    requires 0.0 <= x <= y
    ensures ExactScale(d, x) <= ExactScale(d, y)
  {
    ScaledOrder(d, x, y);
  }

  lemma ScaledByOne(d: Duration)
    ensures ExactScale(d, 1.0) == d
  {
    assert d as real * 1.0 == d as real;
    assert Round(d as real) == d;
  }

  /**
   Bounded jitter in exact arithmetic: the delay stays between (1 - ratio) and (1 + ratio) times
   its input, an interval that contains the input, and meets the ends at the extreme samples.
   */
  lemma BoundedJitterRange(p: Policy, base: Duration, sample: real)
    requires Validated(p) && p.jitter.Bounded?
    ensures var r := p.jitter.ratio;
            && ExactScale(base, 1.0 - r) <= base <= ExactScale(base, 1.0 + r)
            && ExactScale(base, 1.0 - r) <= ApplyJitter(p, Exact(), base, sample) <= ExactScale(base, 1.0 + r)
            && (sample <= 0.0 && r > 0.0 ==> ApplyJitter(p, Exact(), base, sample) == ExactScale(base, 1.0 - r))
            && (sample >= 1.0 && r > 0.0 ==> ApplyJitter(p, Exact(), base, sample) == ExactScale(base, 1.0 + r))
  {
    var r := p.jitter.ratio;
    ScaledByOne(base);
    ScalesUp(base, 1.0 - r, 1.0);
    ScalesUp(base, 1.0, 1.0 + r);
  }

  /** A scaled span is the rounded product while that stays below the largest duration. */
  lemma ScaledExact(span: Duration, ratio: real)
    requires 0.0 <= ratio <= 1.0
    ensures 0 <= Round(span as real * ratio) <= span
    ensures ExactScale(span, ratio) == Round(span as real * ratio)
  {
    ScaledOrder(span, 0.0, ratio);
    ScaledOrder(span, ratio, 1.0);
    assert span as real * 1.0 == span as real;
    assert Round(span as real) == span;
  }

  /** Inside the interval the delay lies at the sampled fraction of its span, to the nearest nanosecond. */
  lemma InterpolateExact(min: Duration, max: Duration, sample: real)
    requires min <= max
    ensures var s := Clamp(sample);
            Interpolate(Exact(), min, max, sample) == min + Round((max - min) as real * s)
  {
    var s := Clamp(sample);
    ScaledExact(max - min, s);
    if s == 0.0 {
      assert (max - min) as real * s == 0.0;
    } else if s == 1.0 {
      assert (max - min) as real * s == (max - min) as real;
      assert Round((max - min) as real) == max - min;
    } else if min == max {
      assert (max - min) as real * s == 0.0;
    }
  }

  /** The point at a fraction of an interval, to the nearest nanosecond. */
  function Between(low: int, high: int, fraction: real): int { low + Round((high - low) as real * fraction) }

  lemma InterpolatesBetween(min: Duration, max: Duration, sample: real)
    requires min <= max
    ensures Interpolate(Exact(), min, max, sample) == Between(min, max, Clamp(sample))
  {
    InterpolateExact(min, max, sample);
  }

  lemma UniformExact(p: Policy, index: nat, sample: real)
    requires Validated(p) && p.strategy.Uniform?
    ensures BaseDelay(p, Exact(), index, sample) == Between(p.strategy.min, p.strategy.max, Clamp(sample))
  {
    InterpolatesBetween(p.strategy.min, p.strategy.max, sample);
  }

  lemma FullJitterExact(p: Policy, base: Duration, sample: real)
    requires p.jitter.Full?
    ensures ApplyJitter(p, Exact(), base, sample) == Between(0, base, Clamp(sample))
  {
    InterpolatesBetween(0, base, sample);
  }

  /** Bounded jitter in exact arithmetic is a point between the two scaled ends. */
  lemma BoundedJitterExact(p: Policy, base: Duration, sample: real)
    requires Validated(p) && p.jitter.Bounded? && p.jitter.ratio > 0.0
    ensures ApplyJitter(p, Exact(), base, sample) ==
            Between(ExactScale(base, 1.0 - p.jitter.ratio), ExactScale(base, 1.0 + p.jitter.ratio), Clamp(sample))
  {
    var low, high := ExactScale(base, 1.0 - p.jitter.ratio), ExactScale(base, 1.0 + p.jitter.ratio);
    ScalesUp(base, 1.0 - p.jitter.ratio, 1.0 + p.jitter.ratio);
    InterpolatesBetween(low, high, sample);
  }

  // --- The stateful sequence --------------------------------------------------------

  class BackoffState {
    const policy: Policy
    const arithmetic: Arithmetic
    var retryIndex: nat

    constructor (policy: Policy, arithmetic: Arithmetic)
      ensures this.policy == policy && this.arithmetic == arithmetic && retryIndex == 0
    {
      this.policy := policy;
      this.arithmetic := arithmetic;
      retryIndex := 0;
    }

    /** Selects the next step; the index saturates at the largest 32-bit value. */
    method Next(request: Request, draws: Draws) returns (step: BackoffStep)
      modifies this
      ensures retryIndex == if old(retryIndex) < MAX_INDEX then old(retryIndex) + 1 else old(retryIndex)
      ensures step == StepAt(policy, arithmetic, retryIndex, request, draws)
    {
      if retryIndex < MAX_INDEX {
        retryIndex := retryIndex + 1;
      }
      var base := BaseDelay(policy, arithmetic, retryIndex, draws.base);
      step := Resolve(policy, arithmetic, base, request, retryIndex, draws);
    }

    method Reset()
      modifies this
      ensures retryIndex == 0
    {
      retryIndex := 0;
    }
  }
}
