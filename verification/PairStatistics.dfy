/** Rolling statistics of two legs (indicators/correlation.py, indicators/zscore.py). */
module PairStatistics {
  import opened Prelude
  import opened RealMath
  import opened Series
  import opened Statistics
  import opened MovingAverage

  function Clip(x: real): (r: real)
    ensures -1.0 <= r <= 1.0 && (-1.0 <= x <= 1.0 ==> r == x)
  {
    if x < -1.0 then -1.0 else if x > 1.0 then 1.0 else x
  }

  /** cov / sqrt(var var), missing when either window is flat, clipped into [-1, 1]. */
  function CorrelationOf(root: real -> real, a: seq<real>, b: seq<real>): Option<real> {
    if |a| != |b| then None
    else
      var denominator := root(Times(Variance(a), Variance(b)));
      if denominator > 0.0 then Some(Clip(Covariance(a, b) / denominator)) else None
  }

  /** cov / var, missing when the explanatory window is flat. */
  function SlopeOf(a: seq<real>, b: seq<real>): Option<real> {
    if |a| == |b| && Variance(b) > 0.0 then Some(Covariance(a, b) / Variance(b)) else None
  }

  function RollingCorrelation(root: real -> real, a: Column, b: Column, window: nat): (r: Column)
    requires window > 0 && |a| == |b|
    ensures |r| == |a|
  {
    RollingPair((v: seq<real>, w: seq<real>) => CorrelationOf(root, v, w), a, b, window)
  }

  function HedgeRatio(a: Column, b: Column, window: nat): (r: Column)
    requires window > 0 && |a| == |b|
    ensures |r| == |a|
  {
    RollingPair(SlopeOf, a, b, window)
  }

  function ZCell(x: Option<real>, mean: Option<real>, std: Option<real>): Option<real> {
    if x.Some? && mean.Some? && std.Some? && std.value > 0.0 then Some((x.value - mean.value) / std.value) else None
  }

  function ZColumn(c: Column, mean: Column, std: Column): (r: Column)
    requires |c| == |mean| == |std|
    ensures |r| == |c|
  {
    seq(|c|, t requires 0 <= t < |c| => ZCell(c[t], mean[t], std[t]))
  }

  function RollingZScore(root: real -> real, c: Column, window: nat): (r: Column)
    requires window > 0
    ensures |r| == |c|
  {
    ZColumn(c, Sma(c, window), RollingStd(root, c, window))
  }

  lemma RollingCorrelationPrefix(root: real -> real, a: Column, b: Column, window: nat, k: nat)
    requires window > 0 && k <= |a| == |b|
    ensures RollingCorrelation(root, a, b, window)[..k] == RollingCorrelation(root, a[..k], b[..k], window)
  {
    RollingPairPrefix((v: seq<real>, w: seq<real>) => CorrelationOf(root, v, w), a, b, window, k);
    hide RollingPair;
  }

  lemma RollingStdPrefix(root: real -> real, c: Column, window: nat, k: nat)
    requires window > 0 && k <= |c|
    ensures RollingStd(root, c, window)[..k] == RollingStd(root, c[..k], window)
  {
    RollingPrefix((v: seq<real>) => Some(root(Variance(v))), c, window, k);
    hide Rolling;
  }

  lemma RollingZScorePrefix(root: real -> real, c: Column, window: nat, k: nat)
    requires window > 0 && k <= |c|
    ensures RollingZScore(root, c, window)[..k] == RollingZScore(root, c[..k], window)
  {
    RollingPrefix(MeanOf, c, window, k);
    RollingStdPrefix(root, c, window, k);
    assert ZColumn(c, Sma(c, window), RollingStd(root, c, window))[..k] ==
           ZColumn(c[..k], Sma(c, window)[..k], RollingStd(root, c, window)[..k]) by { hide ZCell; }
    hide Rolling, ZColumn, RollingStd;
  }

  /** The clip never changes an exact correlation. */
  lemma ClipIsIdle(root: real -> real, a: seq<real>, b: seq<real>)
    requires IsRoot(root) && |a| == |b| && root(Times(Variance(a), Variance(b))) > 0.0
    ensures var c := Covariance(a, b) / root(Times(Variance(a), Variance(b)));
            -1.0 <= c <= 1.0 && CorrelationOf(root, a, b) == Some(c)
  {
    VarianceNonNegative(a);
    VarianceNonNegative(b);
    TimesNonNegative(Variance(a), Variance(b));
    CorrelationBound(a, b);
    var d := root(Times(Variance(a), Variance(b)));
    assert Times(d, d) == Times(Variance(a), Variance(b));
    SquareOrder(Covariance(a, b), d);
    hide Covariance, Variance, Times;
    QuotientAtLeast(Covariance(a, b), d, -1.0);
    QuotientAtMost(Covariance(a, b), d, 1.0);
  }

  /** Wherever the hedge ratio exists it is the least-squares slope of its window. */
  lemma HedgeRatioIsLeastSquares(a: Column, b: Column, window: nat, t: nat, alpha: real, beta: real)
    requires window > 0 && t < |a| == |b| && HedgeRatio(a, b, window)[t].Some?
    ensures Window(a, window, t).Some? && Window(b, window, t).Some?
    ensures var v, w, slope := Window(a, window, t).value, Window(b, window, t).value, HedgeRatio(a, b, window)[t].value;
            SquaredError(v, w, Intercept(v, w, slope), slope) <= SquaredError(v, w, alpha, beta)
  {
    var v, w := Window(a, window, t).value, Window(b, window, t).value;
    assert HedgeRatio(a, b, window)[t] == SlopeOf(v, w);
    LeastSquares(v, w, alpha, beta);
    hide Window, SquaredError, Intercept, Covariance, Variance;
  }

  /** Where a z-score exists it is the last value's distance from its window's mean, in deviations. */
  lemma ZScoreAtRow(root: real -> real, c: Column, window: nat, t: nat)
    requires window > 0 && t < |c| && RollingZScore(root, c, window)[t].Some?
    ensures Window(c, window, t).Some?
    ensures var v := Window(c, window, t).value;
            && |v| == window && root(Variance(v)) > 0.0
            && RollingZScore(root, c, window)[t] == Some((v[window - 1] - Mean(v)) / root(Variance(v)))
  {
    var v := Window(c, window, t).value;
    assert Sma(c, window)[t] == MeanOf(v);
    assert RollingStd(root, c, window)[t] == Some(root(Variance(v)));
    assert c[t] == Some(v[window - 1]);
    hide Sma, RollingStd, Window, Mean, Variance;
  }

  lemma RatioTimes(d: real, s: real, z: real)
    requires s > 0.0 && z == d / s
    ensures Times(z, s) == d
  {
    DivMul(d, s);
  }

  /** Samuelson for the z-score: z^2 <= window - 1, so a higher entry threshold is never reached. */
  lemma ZScoreBound(root: real -> real, c: Column, window: nat, t: nat)
    requires IsRoot(root) && window > 0 && t < |c| && RollingZScore(root, c, window)[t].Some?
    ensures var z := RollingZScore(root, c, window)[t].value; Times(z, z) <= (window - 1) as real
  {
    ZScoreAtRow(root, c, window, t);
    var v := Window(c, window, t).value;
    var d, s, z := v[window - 1] - Mean(v), root(Variance(v)), RollingZScore(root, c, window)[t].value;
    Samuelson(v);
    VarianceNonNegative(v);
    RatioTimes(d, s, z);
    TimesOfSquares(z, s);
    assert Times(s, s) == Variance(v);
    SquareSign(s);
    hide RollingZScore, Window, Mean, Variance, Times;
    TimesCancels(Times(z, z), (window - 1) as real, Times(s, s));
  }
}
