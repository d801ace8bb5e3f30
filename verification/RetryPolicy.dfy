/** The delays between a job's attempts. A delay is a 64-bit count of nanoseconds; the floating-point
    steps between are exact reals here, but their conversion back to 64 bits is modelled. */
module RetryPolicy {
  type Duration = x: int | MIN <= x <= MAX witness 0

  const MIN: int := -0x8000_0000_0000_0000
  const MAX: int := 0x7fff_ffff_ffff_ffff

  /** Conversion drops the fraction. */
  function Trunc(x: real): int {
    if x >= 0.0 then x.Floor else -(-x).Floor
  }

  predicate Fits(x: real) {
    MIN <= Trunc(x) <= MAX
  }

  /** time.Duration(x); out of range it is the least integer, as amd64 converts. */
  function ToDuration(x: real): Duration {
    if Fits(x) then Trunc(x) else MIN
  }

  function Pow(m: real, e: nat): real {
    if e == 0 then 1.0 else m * Pow(m, e - 1)
  }

  /** m to the power e, for either sign of e. */
  function Power(m: real, e: int): real
    requires e >= 0 || m != 0.0
  {
    if e >= 0 then Pow(m, e) else Pow(1.0 / m, -e)
  }

  datatype Policy = Exponential(baseDelay: Duration, maxDelay: Duration, multiplier: real)

  /** Submitted retry counts may be negative, so `attempt` need not start at 1. */
  predicate Defined(p: Policy, attempt: int) {
    attempt >= 1 || p.multiplier != 0.0
  }

  /** The delay after failure number `attempt`, before it is converted and capped. */
  function Exact(p: Policy, attempt: int): real
    requires Defined(p, attempt)
  {
    p.baseDelay as real * Power(p.multiplier, attempt - 1)
  }

  function NextDelay(p: Policy, attempt: int): Duration
    requires Defined(p, attempt)
  {
    var delay := Exact(p, attempt);
    if ToDuration(delay) > p.maxDelay then p.maxDelay else ToDuration(delay)
  }

  function Spread(d: real, factor: real, draw: real): real {
    d + d * factor * (draw * 2.0 - 1.0)
  }

  /** `draw` is the random number in [0, 1). */
  function Jitter(delay: Duration, factor: real, draw: real): Duration {
    var jittered := Spread(delay as real, factor, draw);
    ToDuration(if jittered < 0.0 then delay as real * 0.1 else jittered)
  }

  function Min(x: int, y: int): int {
    if x <= y then x else y
  }

  lemma TruncGrows(x: real, y: real)
    requires x <= y
    ensures Trunc(x) <= Trunc(y)
  {
  }

  /** The delay is the truncated exponential capped at the maximum, exactly if the conversion does not
      overflow (or nothing but the least delay is allowed anyway). */
  lemma DelayIsCappedExactly(p: Policy, attempt: int)
    requires Defined(p, attempt)
    ensures NextDelay(p, attempt) == Min(Trunc(Exact(p, attempt)), p.maxDelay)
       <==> Fits(Exact(p, attempt)) || (Exact(p, attempt) > 0.0 && p.maxDelay == MIN)
  {
  }

  // ---- Growth -----------------------------------------------------------------------------------

  predicate Growing(p: Policy) {
    p.multiplier >= 1.0 && 0 <= p.baseDelay && 0 <= p.maxDelay
  }

  lemma Scale(x: real, y: real, z: real)
    requires x <= y && 0.0 <= z
    ensures x * z <= y * z
  {
  }

  lemma {:induction false} PowIsPositive(m: real, e: nat)
    requires m > 0.0
    ensures 0.0 < Pow(m, e)
  {
    if e > 0 {
      PowIsPositive(m, e - 1);
    }
  }

  /** One more factor, on either side of zero. */
  lemma PowerStep(m: real, e: int)
    requires m >= 1.0
    ensures 0.0 < Power(m, e - 1) <= Power(m, e)
  {
    var q := 1.0 / m;
    assert 0.0 < q <= 1.0;
    if e > 0 {
      PowIsPositive(m, e - 1);
      Scale(1.0, m, Pow(m, e - 1));
    } else {
      PowIsPositive(q, -e);
      PowIsPositive(q, 1 - e);
      assert Pow(q, 1 - e) == q * Pow(q, -e);
      Scale(q, 1.0, Pow(q, -e));
    }
  }

  lemma {:induction false} PowerGrows(m: real, e: int, f: int)
    requires m >= 1.0 && e <= f
    ensures 0.0 < Power(m, e) <= Power(m, f)
    decreases f - e
  {
    PowerStep(m, f);
    if e < f {
      PowerGrows(m, e, f - 1);
    } else {
      PowerStep(m, e + 1);
    }
  }

  lemma ExactGrows(p: Policy, j: int, k: int)
    requires Growing(p) && j <= k
    ensures 0.0 <= Exact(p, j) <= Exact(p, k)
    ensures Fits(Exact(p, k)) ==> Fits(Exact(p, j))
  {
    PowerGrows(p.multiplier, j - 1, k - 1);
    Scale(0.0, Power(p.multiplier, j - 1), p.baseDelay as real);
    Scale(Power(p.multiplier, j - 1), Power(p.multiplier, k - 1), p.baseDelay as real);
    assert Exact(p, j) == Power(p.multiplier, j - 1) * p.baseDelay as real;
    assert Exact(p, k) == Power(p.multiplier, k - 1) * p.baseDelay as real;
    TruncGrows(Exact(p, j), Exact(p, k));
  }

  /** Without overflow delays never shrink. */
  lemma DelaysNeverShrink(p: Policy, j: int, k: int)
    requires Growing(p) && j <= k && Fits(Exact(p, k))
    ensures 0 <= NextDelay(p, j) <= NextDelay(p, k) <= p.maxDelay
  {
    ExactGrows(p, j, k);
    TruncGrows(Exact(p, j), Exact(p, k));
  }

  /** Once at the maximum they stay there, up to the first overflow; from there on they are negative. */
  lemma DelaysStayCapped(p: Policy, j: int, k: int)
    requires Growing(p) && j <= k && NextDelay(p, j) == p.maxDelay
    ensures NextDelay(p, k) == if Fits(Exact(p, k)) then p.maxDelay else MIN
  {
    ExactGrows(p, j, k);
    TruncGrows(Exact(p, j), Exact(p, k));
  }

  /** Doubling from one second overflows at the 35th failure whatever the maximum: the delay is negative
      and the retry immediate. */
  lemma ThirtyFifthRetryIsImmediate(p: Policy)
    requires p.baseDelay == 1_000_000_000 && p.multiplier == 2.0 && 0 <= p.maxDelay
    ensures NextDelay(p, 34) == Min(0x2_0000_0000 * 1_000_000_000, p.maxDelay) && NextDelay(p, 35) == MIN
  {
    assert Pow(2.0, 8) == 256.0;
    PowAdds(2.0, 8, 8);
    PowAdds(2.0, 16, 16);
    assert Pow(2.0, 32) == 4294967296.0;
    assert Pow(2.0, 33) == 8589934592.0;
    assert Pow(2.0, 34) == 17179869184.0;
  }

  lemma {:induction false} PowAdds(m: real, e: nat, f: nat)
    ensures Pow(m, e + f) == Pow(m, e) * Pow(m, f)
  {
    if e > 0 {
      PowAdds(m, e - 1, f);
      assert m * (Pow(m, e - 1) * Pow(m, f)) == (m * Pow(m, e - 1)) * Pow(m, f);
    }
  }

  // ---- Jitter -----------------------------------------------------------------------------------

  predicate Draw(u: real) {
    0.0 <= u < 1.0
  }

  /** (1 + factor) * d. */
  function High(d: real, factor: real): real {
    d + factor * d
  }

  /** (1 - factor) * d. */
  function Low(d: real, factor: real): real {
    d - factor * d
  }

  lemma HighGrows(d: real, e: real, factor: real)
    requires 0.0 <= d <= e && 0.0 <= factor
    ensures 0.0 <= High(d, factor) <= High(e, factor)
  {
    Scale(d, e, factor);
    Scale(0.0, d, factor);
  }

  lemma SpreadStaysWithin(d: real, factor: real, u: real)
    requires 0.0 <= d && 0.0 <= factor <= 1.0 && Draw(u)
    ensures 0.0 <= Low(d, factor) <= Spread(d, factor, u) <= High(d, factor)
  {
    var t := u * 2.0 - 1.0;
    var w := d * factor;
    Scale(0.0, factor, d);
    Scale(factor, 1.0, d);
    Scale(-1.0, t, w);
    Scale(t, 1.0, w);
    assert Spread(d, factor, u) == d + w * t && w == factor * d;
  }

  lemma ConversionStaysWithin(low: real, x: real, high: real)
    requires 0.0 <= low <= x <= high && Fits(high)
    ensures 0 <= Trunc(low) <= ToDuration(x) <= Trunc(high) && ToDuration(x) as real <= high
  {
    TruncGrows(low, x);
    TruncGrows(x, high);
  }

  /** Jitter with a factor of at most 1 stays within that factor of the delay, both bounds truncated. */
  lemma JitterStaysWithin(delay: Duration, factor: real, u: real)
    requires 0 <= delay && 0.0 <= factor <= 1.0 && Draw(u) && Fits(High(delay as real, factor))
    ensures 0 <= Trunc(Low(delay as real, factor)) <= Jitter(delay, factor, u) <= Trunc(High(delay as real, factor))
    ensures Jitter(delay, factor, u) as real <= High(delay as real, factor)
  {
    var d := delay as real;
    SpreadStaysWithin(d, factor, u);
    ConversionStaysWithin(Low(d, factor), Spread(d, factor, u), High(d, factor));
  }

  lemma Share(w: real, y: real) returns (t: real)
    requires 0.0 < w && -w <= y < w
    ensures t * w == y && -1.0 <= t < 1.0
  {
    t := y / w;
    assert t * w == y;
  }

  lemma SpreadReaches(d: real, factor: real, x: real) returns (u: real)
    requires 0.0 < d && 0.0 < factor && Low(d, factor) <= x < High(d, factor)
    ensures Draw(u) && Spread(d, factor, u) == x
  {
    var w := d * factor;
    assert 0.0 < w == factor * d;
    var t := Share(w, x - d);
    u := (t + 1.0) / 2.0;
    assert Spread(d, factor, u) == d + w * t;
  }

  lemma WholeDuration(v: Duration)
    ensures ToDuration(v as real) == v
  {
  }

  /** The delay is really spread: every duration from (1 - factor) to below (1 + factor) of it comes up, for
      some draw. */
  lemma JitterReaches(delay: Duration, factor: real, wanted: Duration) returns (u: real)
    requires 0 < delay && 0.0 < factor <= 1.0
    requires Low(delay as real, factor) <= wanted as real < High(delay as real, factor)
    ensures Draw(u) && Jitter(delay, factor, u) == wanted
  {
    var d := delay as real;
    u := SpreadReaches(d, factor, wanted as real);
    SpreadStaysWithin(d, factor, u);
    WholeDuration(wanted);
  }

  /** A greater draw never gives a shorter delay. */
  lemma JitterGrows(delay: Duration, factor: real, u: real, v: real)
    requires 0 <= delay && 0.0 <= factor <= 1.0 && Draw(u) && Draw(v) && u <= v
    requires Fits(High(delay as real, factor))
    ensures Jitter(delay, factor, u) <= Jitter(delay, factor, v)
  {
    var d := delay as real;
    SpreadStaysWithin(d, factor, u);
    SpreadStaysWithin(d, factor, v);
    Scale(0.0, factor, d);
    Scale(u * 2.0 - 1.0, v * 2.0 - 1.0, factor * d);
    assert Spread(d, factor, u) == d + (u * 2.0 - 1.0) * (factor * d);
    assert Spread(d, factor, v) == d + (v * 2.0 - 1.0) * (factor * d);
    TruncGrows(Spread(d, factor, u), Spread(d, factor, v));
    TruncGrows(Spread(d, factor, v), High(d, factor));
    TruncGrows(0.0, Spread(d, factor, u));
  }

  lemma SpreadSign(d: real, factor: real, u: real)
    requires 0.0 < d
    ensures Spread(d, factor, u) < 0.0 <==> factor * (1.0 - 2.0 * u) > 1.0
  {
    var t := factor * (1.0 - 2.0 * u);
    calc {
      Spread(d, factor, u);
      d + (d * factor) * (u * 2.0 - 1.0);
      d - d * t;
      d * (1.0 - t);
    }
    if 1.0 - t < 0.0 {
      assert d * (1.0 - t) < 0.0;
    } else {
      Scale(0.0, d, 1.0 - t);
    }
  }

  /** A positive delay falls back to a tenth exactly if the factor exceeds 1 and the draw is low enough. */
  lemma FallsBackExactly(delay: Duration, factor: real, u: real)
    requires 0 < delay && 0.0 <= factor && Draw(u)
    ensures Spread(delay as real, factor, u) < 0.0 <==> factor * (1.0 - 2.0 * u) > 1.0
    ensures factor * (1.0 - 2.0 * u) > 1.0 ==> factor > 1.0 && Jitter(delay, factor, u) == Trunc(delay as real * 0.1)
  {
    SpreadSign(delay as real, factor, u);
    Scale(1.0 - 2.0 * u, 1.0, factor);
  }

  // ---- A job's total wait -----------------------------------------------------------------------

  /** The waits after the first |draws| failures. */
  function Total(p: Policy, factor: real, draws: seq<real>): int {
    if draws == [] then 0
    else Total(p, factor, draws[..|draws| - 1]) + Jitter(NextDelay(p, |draws|), factor, draws[|draws| - 1])
  }

  /** The first n terms b, b m, b m^2, ... */
  function Geometric(b: real, m: real, n: nat): real {
    if n == 0 then 0.0 else Geometric(b, m, n - 1) + b * Pow(m, n - 1)
  }

  /** The delays after the first n failures, before they are converted and capped. */
  function Uncapped(p: Policy, n: nat): real {
    if n == 0 then 0.0 else Uncapped(p, n - 1) + Exact(p, n)
  }

  lemma {:induction false} UncappedIsGeometric(p: Policy, n: nat)
    ensures Uncapped(p, n) == Geometric(p.baseDelay as real, p.multiplier, n)
  {
    if n > 0 {
      UncappedIsGeometric(p, n - 1);
    }
  }

  lemma OneMoreTerm(m: real, g: real, b: real, q: real)
    ensures m * (g + b * q) == m * g + b * (m * q)
  {
    assert m * (b * q) == b * (m * q);
  }

  /** Their closed form, multiplied by m - 1. */
  lemma {:induction false} GeometricSum(b: real, m: real, n: nat)
    ensures m * Geometric(b, m, n) - Geometric(b, m, n) == b * Pow(m, n) - b
  {
    if n > 0 {
      GeometricSum(b, m, n - 1);
      OneMoreTerm(m, Geometric(b, m, n - 1), b, Pow(m, n - 1));
    }
  }

  lemma DelayIsAtMost(p: Policy, k: nat)
    requires Growing(p) && k >= 1 && Fits(Exact(p, k))
    ensures 0 <= NextDelay(p, k) <= p.maxDelay && NextDelay(p, k) as real <= Exact(p, k)
  {
    DelaysNeverShrink(p, k, k);
    ExactGrows(p, k, k);
  }

  lemma WaitIsWithin(delay: Duration, factor: real, u: real, most: Duration, exact: real)
    requires 0 <= delay <= most && delay as real <= exact && 0.0 <= factor <= 1.0 && Draw(u)
    requires Fits(High(most as real, factor))
    ensures Jitter(delay, factor, u) as real <= High(exact, factor)
    ensures Jitter(delay, factor, u) as real <= High(most as real, factor)
  {
    HighGrows(delay as real, most as real, factor);
    HighGrows(delay as real, exact, factor);
    TruncGrows(0.0, High(delay as real, factor));
    TruncGrows(High(delay as real, factor), High(most as real, factor));
    JitterStaysWithin(delay, factor, u);
  }

  lemma AddWait(sum: int, wait: int, low: real, more: real, factor: real)
    requires sum as real <= High(low, factor) && wait as real <= High(more, factor)
    ensures (sum + wait) as real <= High(low + more, factor)
  {
    assert factor * (low + more) == factor * low + factor * more;
  }

  lemma NextWait(p: Policy, factor: real, k: nat, u: real)
    requires Growing(p) && 0.0 <= factor <= 1.0 && Draw(u) && k >= 1
    requires Fits(Exact(p, k)) && Fits(High(p.maxDelay as real, factor))
    ensures Jitter(NextDelay(p, k), factor, u) as real <= High(Exact(p, k), factor)
    ensures Jitter(NextDelay(p, k), factor, u) as real <= High(p.maxDelay as real, factor)
  {
    DelayIsAtMost(p, k);
    WaitIsWithin(NextDelay(p, k), factor, u, p.maxDelay, Exact(p, k));
  }

  function Maximal(p: Policy, n: nat): int {
    n * p.maxDelay
  }

  predicate Waitable(p: Policy, factor: real, draws: seq<real>) {
    && Growing(p) && 0.0 <= factor <= 1.0 && Fits(High(p.maxDelay as real, factor))
    && (forall u :: u in draws ==> Draw(u))
    && (draws != [] ==> Fits(Exact(p, |draws|)))
  }

  lemma WaitableBefore(p: Policy, factor: real, draws: seq<real>)
    requires Waitable(p, factor, draws) && draws != []
    ensures Waitable(p, factor, draws[..|draws| - 1])
  {
    if |draws| > 1 {
      ExactGrows(p, |draws| - 1, |draws|);
    }
  }

  /** The last wait, and the last term of the geometric sum. */
  lemma LastWait(p: Policy, factor: real, draws: seq<real>) returns (wait: int, exact: real)
    requires Waitable(p, factor, draws) && draws != []
    ensures Total(p, factor, draws) == Total(p, factor, draws[..|draws| - 1]) + wait
    ensures Uncapped(p, |draws|) == Uncapped(p, |draws| - 1) + exact
    ensures Maximal(p, |draws|) == Maximal(p, |draws| - 1) + p.maxDelay
    ensures wait as real <= High(exact, factor) && wait as real <= High(p.maxDelay as real, factor)
  {
    wait, exact := Jitter(NextDelay(p, |draws|), factor, draws[|draws| - 1]), Exact(p, |draws|);
    NextWait(p, factor, |draws|, draws[|draws| - 1]);
  }

  /** A job that is attempted n + 1 times waits at most (1 + factor) times the smaller of the geometric
      sum and n maximal delays. */
  lemma {:induction false} TotalWaitIsBounded(p: Policy, factor: real, draws: seq<real>)
    requires Waitable(p, factor, draws)
    ensures Total(p, factor, draws) as real <= High(Uncapped(p, |draws|), factor)
    ensures Total(p, factor, draws) as real <= High(Maximal(p, |draws|) as real, factor)
  {
    var n := |draws|;
    if n > 0 {
      WaitableBefore(p, factor, draws);
      TotalWaitIsBounded(p, factor, draws[..n - 1]);
      var wait, exact := LastWait(p, factor, draws);
      var sum := Total(p, factor, draws[..n - 1]);
      AddWait(sum, wait, Uncapped(p, n - 1), exact, factor);
      AddWait(sum, wait, Maximal(p, n - 1) as real, p.maxDelay as real, factor);
    }
  }
}
