/** moving_average.py. */
module MovingAverage {
  import opened Prelude
  import opened RealMath
  import opened Series
  import opened Statistics

  function MeanOf(v: seq<real>): Option<real> {
    Some(Mean(v))
  }

  /** sma(series, window). */
  function Sma(c: Column, window: nat): (r: Column)
    requires window > 0
    ensures |r| == |c|
  {
    Rolling(MeanOf, c, window)
  }

  /** A square root on non-negative reals: the library's, supplied as a parameter. */
  ghost predicate IsRoot(root: real -> real) {
    forall x: real {:trigger root(x)} :: x >= 0.0 ==> root(x) >= 0.0 && Times(root(x), root(x)) == x
  }

  /** rolling_std(series, window), ddof = 0. */
  function RollingStd(root: real -> real, c: Column, window: nat): (r: Column)
    requires window > 0
    ensures |r| == |c|
  {
    Rolling((v: seq<real>) => Some(root(Variance(v))), c, window)
  }

  /** The smoothing factor 2 / (span + 1). */
  function Alpha(span: nat): (a: real)
    requires span > 0
    ensures 0.0 < a <= 1.0
  {
    2.0 / (span as real + 1.0)
  }

  /** alpha x + (1 - alpha) y. */
  function Blend(alpha: real, x: real, y: real): real {
    alpha * x + (1.0 - alpha) * y
  }

  /** The seeded recursion: missing before the seed, the mean of the first span values at it, blended after it. */
  function EmaAt(values: seq<real>, span: nat, t: nat): Option<real>
    requires span > 0 && t < |values|
  {
    if t + 1 < span then None
    else if t + 1 == span then Some(Mean(values[..span]))
    else Some(Blend(Alpha(span), values[t], EmaAt(values, span, t - 1).value))
  }

  /** ema(series, span). */
  function Ema(values: seq<real>, span: nat): (r: Column)
    requires span > 0
    ensures |r| == |values|
  {
    seq(|values|, t requires 0 <= t < |values| => EmaAt(values, span, t))
  }

  lemma EmaSeeds(values: seq<real>, span: nat)
    requires span > 0
    ensures forall t :: 0 <= t < |values| && t + 1 < span ==> EmaAt(values, span, t) == None
    ensures span <= |values| ==> EmaAt(values, span, span - 1) == Some(Mean(values[..span]))
  {
  }

  lemma EmaSteps(values: seq<real>, span: nat, t: nat)
    requires 0 < span <= t < |values|
    ensures EmaAt(values, span, t) == Some(Blend(Alpha(span), values[t], EmaAt(values, span, t - 1).value))
  {
  }

  /** The loop of ema, writing its output series in place. */
  method ComputeEma(values: seq<real>, span: nat) returns (out: array<Option<real>>)
    requires span > 0
    ensures fresh(out) && out[..] == Ema(values, span)
  {
    hide Mean, Alpha, Blend, EmaAt;
    EmaSeeds(values, span);
    var n := |values|;
    out := new Option<real>[n](_ => None);
    if n < span {
      return;
    }
    var alpha := Alpha(span);
    var current := Mean(values[..span]);
    out[span - 1] := Some(current);
    for i := span to n
      invariant forall t :: 0 <= t < i ==> out[t] == EmaAt(values, span, t)
      invariant forall t :: i <= t < n ==> out[t] == None
      invariant Some(current) == EmaAt(values, span, i - 1)
    {
      EmaSteps(values, span, i);
      current := Blend(alpha, values[i], current);
      out[i] := Some(current);
    }
  }

  // ---- causality

  lemma {:induction false} EmaAtPrefix(values: seq<real>, span: nat, k: nat, t: nat)
    requires span > 0 && t < k <= |values|
    ensures EmaAt(values[..k], span, t) == EmaAt(values, span, t)
  {
    if t + 1 >= span {
      assert values[..k][..span] == values[..span];
      if t + 1 > span {
        EmaAtPrefix(values, span, k, t - 1);
      }
    }
  }

  lemma EmaPrefix(values: seq<real>, span: nat, k: nat)
    requires span > 0 && k <= |values|
    ensures Ema(values, span)[..k] == Ema(values[..k], span)
  {
    forall t | 0 <= t < k
      ensures Ema(values, span)[t] == Ema(values[..k], span)[t]
    {
      EmaAtPrefix(values, span, k, t);
    }
  }

  // ---- contraction

  lemma {:induction false} SumBetween(v: seq<real>, lo: real, hi: real)
    requires forall i :: 0 <= i < |v| ==> lo <= v[i] <= hi
    ensures |v| as real * lo <= Sum(v) <= |v| as real * hi
  {
    if v != [] {
      var n := |v| - 1;
      SumBetween(v[..n], lo, hi);
      assert |v| as real * lo == n as real * lo + lo && |v| as real * hi == n as real * hi + hi;
    }
  }

  lemma MeanBetween(v: seq<real>, lo: real, hi: real)
    requires |v| > 0 && forall i :: 0 <= i < |v| ==> lo <= v[i] <= hi
    ensures lo <= Mean(v) <= hi
  {
    SumBetween(v, lo, hi);
    QuotientAtLeast(Sum(v), |v| as real, lo);
    QuotientAtMost(Sum(v), |v| as real, hi);
  }

  lemma BlendAtLeast(alpha: real, x: real, y: real, lo: real)
    requires 0.0 <= alpha <= 1.0 && lo <= x && lo <= y
    ensures lo <= Blend(alpha, x, y)
  {
    var b := 1.0 - alpha;
    MulNonNegative(alpha, x - lo);
    MulNonNegative(b, y - lo);
    assert Blend(alpha, x, y) == lo + alpha * (x - lo) + b * (y - lo);
  }

  lemma BlendNegated(alpha: real, x: real, y: real)
    ensures Blend(alpha, -x, -y) == -Blend(alpha, x, y)
  {
  }

  lemma BlendBetween(alpha: real, x: real, y: real, lo: real, hi: real)
    requires 0.0 <= alpha <= 1.0 && lo <= x <= hi && lo <= y <= hi
    ensures lo <= Blend(alpha, x, y) <= hi
  {
    BlendAtLeast(alpha, x, y, lo);
    BlendAtLeast(alpha, -x, -y, -hi);
    BlendNegated(alpha, x, y);
    hide Blend;
  }

  /** An EMA value lies between any bounds of the inputs seen so far. */
  lemma {:induction false} EmaBetween(values: seq<real>, span: nat, t: nat, lo: real, hi: real)
    requires span > 0 && span <= t + 1 && t < |values|
    requires forall i :: 0 <= i <= t ==> lo <= values[i] <= hi
    ensures EmaAt(values, span, t).Some? && lo <= EmaAt(values, span, t).value <= hi
  {
    hide Mean, Blend, Alpha;
    if t + 1 == span {
      MeanBetween(values[..span], lo, hi);
    } else {
      EmaBetween(values, span, t - 1, lo, hi);
      BlendBetween(Alpha(span), values[t], EmaAt(values, span, t - 1).value, lo, hi);
    }
  }

  function Power(x: real, n: nat): real {
    if n == 0 then 1.0 else Times(x, Power(x, n - 1))
  }

  /** The EMA started at bar `start`, read at bar t of the whole series. */
  function EmaFrom(values: seq<real>, start: nat, span: nat, t: nat): Option<real>
    requires span > 0 && start <= t < |values|
  {
    EmaAt(values[start..], span, t - start)
  }

  lemma BlendDifference(alpha: real, x: real, y: real, z: real)
    ensures Blend(alpha, x, y) - Blend(alpha, x, z) == Times(1.0 - alpha, y - z)
  {
  }

  lemma TimesAssociates(x: real, y: real, z: real)
    ensures Times(x, Times(y, z)) == Times(Times(x, y), z)
  {
  }

  /**
   * Two EMAs of one series, started at different bars, differ by exactly (1 - alpha)^(t - t0) times
   * their difference at the later seed bar t0: where a series was cut matters geometrically less and less.
   */
  lemma {:induction false} EmaContracts(values: seq<real>, a: nat, b: nat, span: nat, t: nat)
    requires span > 0 && a <= b && b + span <= t + 1 && t < |values|
    ensures var t0 := b + span - 1;
            && EmaFrom(values, a, span, t).Some? && EmaFrom(values, b, span, t).Some?
            && EmaFrom(values, a, span, t0).Some? && EmaFrom(values, b, span, t0).Some?
            && EmaFrom(values, a, span, t).value - EmaFrom(values, b, span, t).value ==
               Times(Power(1.0 - Alpha(span), t - t0), EmaFrom(values, a, span, t0).value - EmaFrom(values, b, span, t0).value)
    decreases t
  {
    var t0, q := b + span - 1, 1.0 - Alpha(span);
    EmaKnown(values[a..], span, t - a);
    EmaKnown(values[b..], span, t - b);
    EmaKnown(values[a..], span, t0 - a);
    EmaKnown(values[b..], span, t0 - b);
    hide Mean, Blend, Alpha, Times;
    if t == t0 {
      OneTimes(EmaFrom(values, a, span, t0).value - EmaFrom(values, b, span, t0).value);
    } else {
      EmaContracts(values, a, b, span, t - 1);
      var x, y := EmaFrom(values, a, span, t - 1).value, EmaFrom(values, b, span, t - 1).value;
      BlendDifference(Alpha(span), values[t], x, y);
      TimesAssociates(q, Power(q, t - 1 - t0), EmaFrom(values, a, span, t0).value - EmaFrom(values, b, span, t0).value);
    }
  }

  lemma OneTimes(x: real)
    ensures Times(1.0, x) == x
  {
  }

  lemma {:induction false} EmaKnown(values: seq<real>, span: nat, t: nat)
    requires span > 0 && span <= t + 1 && t < |values|
    ensures EmaAt(values, span, t).Some?
  {
  }

  lemma TimesOfFractions(x: real, y: real)
    requires 0.0 <= x <= 1.0 && 0.0 <= y <= 1.0
    ensures 0.0 <= Times(x, y) <= 1.0
  {
    hide Times;
    TimesNonNegative(x, y);
    TimesMono(x, 1.0, y);
    OneTimes(y);
  }

  lemma {:induction false} PowerBounds(q: real, n: nat)
    requires 0.0 <= q <= 1.0
    ensures 0.0 <= Power(q, n) <= 1.0
  {
    if n > 0 {
      PowerBounds(q, n - 1);
      TimesOfFractions(q, Power(q, n - 1));
      hide Times;
    }
  }

  lemma {:induction false} PowerPositive(q: real, n: nat)
    requires q > 0.0
    ensures Power(q, n) > 0.0
  {
    hide Times;
    if n > 0 {
      PowerPositive(q, n - 1);
      TimesPositive(q, Power(q, n - 1));
    }
  }

  lemma TimesIsZero(x: real, d: real)
    requires x > 0.0
    ensures Times(x, d) == 0.0 <==> d == 0.0
  {
  }

  lemma SeedIsMean(values: seq<real>, b: nat, span: nat)
    requires span > 0 && b + span <= |values|
    ensures EmaFrom(values, b, span, b + span - 1) == Some(Mean(values[b..b + span]))
  {
    assert values[b..][..span] == values[b..b + span];
  }

  /**
   * When a value does not depend on where the series was cut: for a span above one, exactly when the longer
   * EMA happened to equal the mean of the later cut's seed window.
   */
  lemma CutMatters(values: seq<real>, a: nat, b: nat, span: nat, t: nat)
    requires span > 1 && a <= b && b + span <= t + 1 && t < |values|
    ensures EmaFrom(values, a, span, t) == EmaFrom(values, b, span, t) <==>
            EmaFrom(values, a, span, b + span - 1) == Some(Mean(values[b..b + span]))
  {
    var t0, q := b + span - 1, 1.0 - Alpha(span);
    assert q > 0.0;
    hide EmaFrom, Alpha, Times, Power, Mean;
    EmaContracts(values, a, b, span, t);
    SeedIsMean(values, b, span);
    PowerPositive(q, t - t0);
    TimesIsZero(Power(q, t - t0), EmaFrom(values, a, span, t0).value - EmaFrom(values, b, span, t0).value);
  }

  /** A span of one is the series itself, wherever it is cut. */
  lemma SpanOneIsTheSeries(values: seq<real>, a: nat, t: nat)
    requires a <= t < |values|
    ensures EmaFrom(values, a, 1, t) == Some(values[t])
  {
    assert values[a..][t - a] == values[t] && Alpha(1) == 1.0;
    assert values[a..][..1] == [values[a]] && [values[a]][..0] == [];
    assert Sum([values[a]]) == 0.0 + values[a];
  }

  /** Of the values 0, 1, 1 the two-bar EMA at the last bar is 5/6, or 1 when the first bar is cut off. */
  lemma CutsDiffer(values: seq<real>)
    requires values == [0.0, 1.0, 1.0]
    ensures EmaFrom(values, 0, 2, 2) == Some(5.0 / 6.0) && EmaFrom(values, 1, 2, 2) == Some(1.0)
  {
    assert values[0..] == values && values[..2] == [0.0, 1.0] && values[1..] == [1.0, 1.0];
    assert [1.0, 1.0][..2] == [1.0, 1.0];
    assert [0.0, 1.0][..1] == [0.0] && [1.0, 1.0][..1] == [1.0] && [0.0][..0] == [] && [1.0][..0] == [];
    assert Sum([0.0]) == 0.0 && Sum([1.0]) == 1.0;
    assert Mean([0.0, 1.0]) == 0.5 && Mean([1.0, 1.0]) == 1.0;
    assert EmaAt(values, 2, 1) == Some(0.5);
  }

  /** Hence two EMAs of values within [lo, hi] differ by at most (1 - alpha)^(t - t0) (hi - lo). */
  lemma EmaForgets(values: seq<real>, a: nat, b: nat, span: nat, t: nat, lo: real, hi: real)
    requires span > 0 && a <= b && b + span <= t + 1 && t < |values|
    requires forall i :: 0 <= i < |values| ==> lo <= values[i] <= hi
    ensures var t0 := b + span - 1;
            && EmaFrom(values, a, span, t).Some? && EmaFrom(values, b, span, t).Some?
            && Abs(EmaFrom(values, a, span, t).value - EmaFrom(values, b, span, t).value)
               <= Times(Power(1.0 - Alpha(span), t - t0), hi - lo)
  {
    var t0 := b + span - 1;
    EmaContracts(values, a, b, span, t);
    EmaBetween(values[a..], span, t0 - a, lo, hi);
    EmaBetween(values[b..], span, t0 - b, lo, hi);
    var p := Power(1.0 - Alpha(span), t - t0);
    PowerBounds(1.0 - Alpha(span), t - t0);
    var d := EmaFrom(values, a, span, t0).value - EmaFrom(values, b, span, t0).value;
    hide EmaFrom, Power, Alpha;
    ScaledDistance(p, d, hi - lo);
  }

  lemma ScaledDistance(p: real, d: real, range: real)
    requires 0.0 <= p && -range <= d <= range
    ensures Abs(Times(p, d)) <= Times(p, range)
  {
    MulMono(d, range, p);
    MulMono(-range, d, p);
  }
}
