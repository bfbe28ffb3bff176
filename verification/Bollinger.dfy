/** Bollinger Bands: indicators/bollinger.py and strategies/bollinger.py. */
module Bollinger {
  import opened Prelude
  import opened RealMath
  import opened Series
  import opened Statistics
  import opened MovingAverage
  import opened Simulation
  import opened SignalFrame

  datatype Params = Params(window: nat, numStd: real, exitAtMiddle: bool, allowShort: bool)
  {
    predicate Valid() {
      2 <= window <= 400 && 0.1 <= numStd <= 5.0
    }

    function WarmupBars(): nat {
      window
    }
  }

  /** middle + k std, missing when either is. */
  function BandCell(middle: Option<real>, k: real, std: Option<real>): Option<real> {
    if middle.Some? && std.Some? then Some(middle.value + Times(k, std.value)) else None
  }

  function Band(middle: Column, k: real, std: Column): (r: Column)
    requires |middle| == |std|
    ensures |r| == |middle|
  {
    seq(|middle|, t requires 0 <= t < |middle| => BandCell(middle[t], k, std[t]))
  }

  datatype Bands = Bands(middle: Column, upper: Column, lower: Column)

  function BandsOf(root: real -> real, close: seq<real>, window: nat, numStd: real): (r: Bands)
    requires window > 0
    ensures |r.middle| == |r.upper| == |r.lower| == |close|
  {
    var c := Known(close);
    var middle, std := Sma(c, window), RollingStd(root, c, window);
    Bands(middle, Band(middle, numStd, std), Band(middle, -numStd, std))
  }

  function Quotient(x: real, y: real): Option<real> {
    if y == 0.0 then None else Some(x / y)
  }

  /** (upper - lower) / middle. */
  function BandwidthCell(middle: Option<real>, upper: Option<real>, lower: Option<real>): Option<real> {
    if middle.Some? && upper.Some? && lower.Some? then Quotient(upper.value - lower.value, middle.value) else None
  }

  /** (price - lower) / (upper - lower); a collapsed band leaves it missing. */
  function PercentCell(price: real, upper: Option<real>, lower: Option<real>): Option<real> {
    if upper.Some? && lower.Some? then Quotient(price - lower.value, upper.value - lower.value) else None
  }

  function Bandwidth(b: Bands): (r: Column)
    requires |b.middle| == |b.upper| == |b.lower|
    ensures |r| == |b.middle|
  {
    seq(|b.middle|, t requires 0 <= t < |b.middle| => BandwidthCell(b.middle[t], b.upper[t], b.lower[t]))
  }

  function PercentB(close: seq<real>, b: Bands): (r: Column)
    requires |close| == |b.middle| == |b.upper| == |b.lower|
    ensures |r| == |close|
  {
    seq(|close|, t requires 0 <= t < |close| => PercentCell(close[t], b.upper[t], b.lower[t]))
  }

  predicate BelowLower(close: seq<real>, b: Bands, t: nat)
    requires t < |close| == |b.middle| == |b.lower|
  {
    b.middle[t].Some? && b.lower[t].Some? && close[t] < b.lower[t].value
  }

  predicate AboveUpper(close: seq<real>, b: Bands, t: nat)
    requires t < |close| == |b.middle| == |b.upper|
  {
    b.middle[t].Some? && b.upper[t].Some? && close[t] > b.upper[t].value
  }

  /** The close crossed the middle band upwards, each close against its own bar's band. */
  predicate CrossedAbove(close: seq<real>, b: Bands, t: nat)
    requires t < |close| == |b.middle|
  {
    && t > 0 && b.middle[t].Some? && b.middle[t - 1].Some?
    && close[t - 1] <= b.middle[t - 1].value && close[t] > b.middle[t].value
  }

  predicate CrossedBelow(close: seq<real>, b: Bands, t: nat)
    requires t < |close| == |b.middle|
  {
    && t > 0 && b.middle[t].Some? && b.middle[t - 1].Some?
    && close[t - 1] >= b.middle[t - 1].value && close[t] < b.middle[t].value
  }

  ghost predicate Shaped(close: seq<real>, b: Bands) {
    |close| == |b.middle| == |b.upper| == |b.lower|
  }

  function BelowMask(close: seq<real>, b: Bands): (r: seq<bool>)
    requires |close| == |b.middle| == |b.lower|
    ensures |r| == |close|
  {
    seq(|close|, t requires 0 <= t < |close| => BelowLower(close, b, t))
  }

  function AboveMask(close: seq<real>, b: Bands): (r: seq<bool>)
    requires |close| == |b.middle| == |b.upper|
    ensures |r| == |close|
  {
    seq(|close|, t requires 0 <= t < |close| => AboveUpper(close, b, t))
  }

  /** The middle-band exits are not masked in at all without exit_at_middle. */
  function UpMask(p: Params, close: seq<real>, b: Bands): (r: seq<bool>)
    requires |close| == |b.middle|
    ensures |r| == |close|
  {
    seq(|close|, t requires 0 <= t < |close| => p.exitAtMiddle && CrossedAbove(close, b, t))
  }

  function DownMask(p: Params, close: seq<real>, b: Bands): (r: seq<bool>)
    requires |close| == |b.middle|
    ensures |r| == |close|
  {
    seq(|close|, t requires 0 <= t < |close| => p.exitAtMiddle && CrossedBelow(close, b, t))
  }

  function AboveTarget(p: Params): SignalDirection {
    if p.allowShort then SHORT else FLAT
  }

  const EXIT_LONG: string := "close crossed above the middle band — exiting long"
  const EXIT_SHORT: string := "close crossed below the middle band — exiting short"
  const ENTER_LONG: string := "close below the lower band — oversold, entering long"

  function AboveReason(p: Params): string {
    if p.allowShort then "close above the upper band — overbought, entering short"
    else "close above the upper band — overbought, exiting/staying flat"
  }

  function DirectionsOf(p: Params, close: seq<real>, b: Bands): (r: seq<SignalDirection>)
    requires |close| == |b.middle| == |b.upper| == |b.lower|
    ensures |r| == |close|
  {
    ForwardFill(FourMasks(UpMask(p, close, b), FLAT, DownMask(p, close, b), FLAT,
                          BelowMask(close, b), LONG, AboveMask(close, b), AboveTarget(p)), FLAT)
  }

  function ReasonsOf(p: Params, close: seq<real>, b: Bands): (r: seq<string>)
    requires |close| == |b.middle| == |b.upper| == |b.lower|
    ensures |r| == |close|
  {
    var changed := Changed(DirectionsOf(p, close, b));
    Text(FourMasks(And(UpMask(p, close, b), changed), EXIT_LONG, And(DownMask(p, close, b), changed), EXIT_SHORT,
                   And(BelowMask(close, b), changed), ENTER_LONG, And(AboveMask(close, b), changed), AboveReason(p)))
  }

  function IndicatorsOf(close: seq<real>, b: Bands): (r: seq<Indicators>)
    requires |close| == |b.middle| == |b.upper| == |b.lower|
    ensures |r| == |close|
  {
    WithColumn(WithColumn(WithColumn(WithColumn(WithColumn(NoColumns(|close|),
      "bb_middle", b.middle), "bb_upper", b.upper), "bb_lower", b.lower),
      "bb_bandwidth", Bandwidth(b)), "bb_percent_b", PercentB(close, b))
  }

  function Signals(root: real -> real, p: Params, close: seq<real>): (r: SignalSet)
    requires p.Valid()
    ensures |r.rows| == |r.indicators| == |close|
  {
    var b := BandsOf(root, close, p.window, p.numStd);
    SignalSet(Rows(DirectionsOf(p, close, b), ReasonsOf(p, close, b)), IndicatorsOf(close, b))
  }

  /** generate_signals, with its in-place masked assignments. */
  method GenerateSignals(root: real -> real, p: Params, close: seq<real>) returns (r: Result<SignalSet>)
    requires p.Valid()
    ensures r == if |close| < p.window then Failure(InsufficientData) else Success(Signals(root, p, close))
  {
    hide BandsOf, UpMask, DownMask, BelowMask, AboveMask, Changed, And, IndicatorsOf;
    if |close| < p.WarmupBars() {
      return Failure(InsufficientData);
    }
    var n := |close|;
    var b := BandsOf(root, close, p.window, p.numStd);
    var up, down := UpMask(p, close, b), DownMask(p, close, b);
    var below, above := BelowMask(close, b), AboveMask(close, b);

    var target := new Option<SignalDirection>[n](_ => None);
    assert target[..] == Blank(n);
    AssignWhere(target, up, FLAT);
    AssignWhere(target, down, FLAT);
    AssignWhere(target, below, LONG);
    AssignWhere(target, above, AboveTarget(p));
    var directions := ForwardFill(target[..], FLAT);
    assert directions == DirectionsOf(p, close, b);

    var changed := Changed(directions);
    var reasons := new Option<string>[n](_ => None);
    assert reasons[..] == Blank(n);
    AssignWhere(reasons, And(up, changed), EXIT_LONG);
    AssignWhere(reasons, And(down, changed), EXIT_SHORT);
    AssignWhere(reasons, And(below, changed), ENTER_LONG);
    AssignWhere(reasons, And(above, changed), AboveReason(p));
    r := Success(SignalSet(Rows(directions, Text(reasons[..])), IndicatorsOf(close, b)));
  }

  // ---- causality

  lemma BandPrefix(middle: Column, k: real, std: Column, n: nat)
    requires n <= |middle| == |std|
    ensures Band(middle, k, std)[..n] == Band(middle[..n], k, std[..n])
  {
    hide BandCell;
  }

  function First(b: Bands, k: nat): Bands
    requires k <= |b.middle| && k <= |b.upper| && k <= |b.lower|
  {
    Bands(b.middle[..k], b.upper[..k], b.lower[..k])
  }

  lemma BandsPrefix(root: real -> real, close: seq<real>, window: nat, numStd: real, k: nat)
    requires window > 0 && k <= |close|
    ensures First(BandsOf(root, close, window, numStd), k) == BandsOf(root, close[..k], window, numStd)
  {
    var c := Known(close);
    KnownPrefix(close, k);
    RollingPrefix(MeanOf, c, window, k);
    RollingPrefix((v: seq<real>) => Some(root(Variance(v))), c, window, k);
    assert RollingStd(root, c, window)[..k] == RollingStd(root, c[..k], window);
    BandPrefix(Sma(c, window), numStd, RollingStd(root, c, window), k);
    BandPrefix(Sma(c, window), -numStd, RollingStd(root, c, window), k);
    hide Rolling, Band;
  }

  lemma MaskPrefix(p: Params, close: seq<real>, b: Bands, k: nat)
    requires Shaped(close, b) && k <= |close|
    ensures UpMask(p, close, b)[..k] == UpMask(p, close[..k], First(b, k))
    ensures DownMask(p, close, b)[..k] == DownMask(p, close[..k], First(b, k))
    ensures BelowMask(close, b)[..k] == BelowMask(close[..k], First(b, k))
    ensures AboveMask(close, b)[..k] == AboveMask(close[..k], First(b, k))
  {
    forall t | 0 <= t < k
      ensures CrossedAbove(close, b, t) == CrossedAbove(close[..k], First(b, k), t)
      ensures CrossedBelow(close, b, t) == CrossedBelow(close[..k], First(b, k), t)
      ensures BelowLower(close, b, t) == BelowLower(close[..k], First(b, k), t)
      ensures AboveUpper(close, b, t) == AboveUpper(close[..k], First(b, k), t)
    {
      assert close[..k][t] == close[t] && b.middle[..k][t] == b.middle[t];
      assert b.upper[..k][t] == b.upper[t] && b.lower[..k][t] == b.lower[t];
      assert t > 0 ==> close[..k][t - 1] == close[t - 1] && b.middle[..k][t - 1] == b.middle[t - 1];
    }
    hide CrossedAbove, CrossedBelow, BelowLower, AboveUpper;
  }

  lemma DirectionsPrefix(p: Params, close: seq<real>, b: Bands, k: nat)
    requires Shaped(close, b) && k <= |close|
    ensures DirectionsOf(p, close, b)[..k] == DirectionsOf(p, close[..k], First(b, k))
  {
    MaskPrefix(p, close, b, k);
    var up, down, below, above := UpMask(p, close, b), DownMask(p, close, b), BelowMask(close, b), AboveMask(close, b);
    FourMasksPrefix(up, FLAT, down, FLAT, below, LONG, above, AboveTarget(p), k);
    ForwardFillPrefix(FourMasks(up, FLAT, down, FLAT, below, LONG, above, AboveTarget(p)), FLAT, k);
    hide UpMask, DownMask, BelowMask, AboveMask, FourMasks, ForwardFill;
  }

  lemma ReasonsPrefix(p: Params, close: seq<real>, b: Bands, k: nat)
    requires Shaped(close, b) && k <= |close|
    ensures ReasonsOf(p, close, b)[..k] == ReasonsOf(p, close[..k], First(b, k))
  {
    hide UpMask, DownMask, BelowMask, AboveMask, FourMasks, DirectionsOf, And, Changed, Text;
    MaskPrefix(p, close, b, k);
    DirectionsPrefix(p, close, b, k);
    var changed := Changed(DirectionsOf(p, close, b));
    ChangedPrefix(DirectionsOf(p, close, b), k);
    var up, down, below, above := UpMask(p, close, b), DownMask(p, close, b), BelowMask(close, b), AboveMask(close, b);
    AndPrefix(up, changed, k);
    AndPrefix(down, changed, k);
    AndPrefix(below, changed, k);
    AndPrefix(above, changed, k);
    var u, d, l, a := And(up, changed), And(down, changed), And(below, changed), And(above, changed);
    FourMasksPrefix(u, EXIT_LONG, d, EXIT_SHORT, l, ENTER_LONG, a, AboveReason(p), k);
    TextPrefix(FourMasks(u, EXIT_LONG, d, EXIT_SHORT, l, ENTER_LONG, a, AboveReason(p)), k);
  }

  lemma IndicatorsPrefix(close: seq<real>, b: Bands, k: nat)
    requires Shaped(close, b) && k <= |close|
    ensures IndicatorsOf(close, b)[..k] == IndicatorsOf(close[..k], First(b, k))
  {
    assert Bandwidth(b)[..k] == Bandwidth(First(b, k)) by { hide BandwidthCell; }
    assert PercentB(close, b)[..k] == PercentB(close[..k], First(b, k)) by { hide PercentCell; }
    var c0 := NoColumns(|close|);
    NoColumnsPrefix(|close|, k);
    var c1 := WithColumn(c0, "bb_middle", b.middle);
    var c2 := WithColumn(c1, "bb_upper", b.upper);
    var c3 := WithColumn(c2, "bb_lower", b.lower);
    var c4 := WithColumn(c3, "bb_bandwidth", Bandwidth(b));
    WithColumnPrefix(c0, "bb_middle", b.middle, k);
    WithColumnPrefix(c1, "bb_upper", b.upper, k);
    WithColumnPrefix(c2, "bb_lower", b.lower, k);
    WithColumnPrefix(c3, "bb_bandwidth", Bandwidth(b), k);
    WithColumnPrefix(c4, "bb_percent_b", PercentB(close, b), k);
    hide WithColumn, NoColumns, Bandwidth, PercentB;
  }

  /** The signals of a truncated series are the truncated signals of the full one. */
  lemma SignalsPrefix(root: real -> real, p: Params, close: seq<real>, k: nat)
    requires p.Valid() && k <= |close|
    ensures Signals(root, p, close[..k]) == FirstRows(Signals(root, p, close), k)
  {
    hide BandsOf, DirectionsOf, ReasonsOf, IndicatorsOf, Rows;
    var b := BandsOf(root, close, p.window, p.numStd);
    BandsPrefix(root, close, p.window, p.numStd, k);
    DirectionsPrefix(p, close, b, k);
    ReasonsPrefix(p, close, b, k);
    IndicatorsPrefix(close, b, k);
    RowsPrefix(DirectionsOf(p, close, b), ReasonsOf(p, close, b), k);
  }

  // ---- the band-touch machine

  /** A band touch decides, else a middle crossing flattens, else the previous target is held. */
  lemma BandMachine(p: Params, close: seq<real>, b: Bands, t: nat)
    requires Shaped(close, b) && t < |close|
    ensures DirectionsOf(p, close, b)[t] ==
            if AboveUpper(close, b, t) then AboveTarget(p)
            else if BelowLower(close, b, t) then LONG
            else if p.exitAtMiddle && (CrossedAbove(close, b, t) || CrossedBelow(close, b, t)) then FLAT
            else if t == 0 then FLAT
            else DirectionsOf(p, close, b)[t - 1]
  {
    var target := FourMasks(UpMask(p, close, b), FLAT, DownMask(p, close, b), FLAT,
                            BelowMask(close, b), LONG, AboveMask(close, b), AboveTarget(p));
    ForwardFillSteps(target, FLAT, t);
    hide ForwardFill;
  }

  // ---- where the price sits in the band

  lemma QuotientCompares(x: real, w: real, c: real)
    requires w > 0.0
    ensures x / w < c <==> x < c * w
    ensures x / w > c <==> x > c * w
  {
    DivMul(x, w);
    if x >= c * w {
      QuotientAtLeast(x, w, c);
    } else if x / w >= c {
      MulMono(c, x / w, w);
    }
    if x <= c * w {
      QuotientAtMost(x, w, c);
    } else if x / w <= c {
      MulMono(x / w, c, w);
    }
  }

  lemma PercentLocates(price: real, lower: real, upper: real)
    requires lower < upper
    ensures var q := PercentCell(price, Some(upper), Some(lower));
            q.Some? && (q.value < 0.0 <==> price < lower) && (q.value > 1.0 <==> price > upper)
  {
    QuotientCompares(price - lower, upper - lower, 0.0);
    QuotientCompares(price - lower, upper - lower, 1.0);
  }

  /**
   * percent_b exists exactly where the bands do and have width; there it is below 0 on the bars that
   * touch the lower band and above 1 on those that touch the upper one.
   */
  lemma PercentBLocatesTouches(root: real -> real, p: Params, close: seq<real>, t: nat)
    requires IsRoot(root) && p.Valid() && t < |close|
    ensures var b := BandsOf(root, close, p.window, p.numStd);
            var q := PercentB(close, b)[t];
            && (q.Some? <==> b.middle[t].Some? && b.upper[t] != b.lower[t])
            && (q.Some? ==> (q.value < 0.0 <==> BelowLower(close, b, t)) && (q.value > 1.0 <==> AboveUpper(close, b, t)))
  {
    BandsAtRow(root, close, p.window, p.numStd, t);
    var b := BandsOf(root, close, p.window, p.numStd);
    hide BandsOf;
    if b.middle[t].Some? {
      var v := close[t + 1 - p.window..t + 1];
      VarianceNonNegative(v);
      TimesNonNegative(p.numStd, root(Variance(v)));
      TimesMinus(p.numStd, root(Variance(v)));
      hide Mean, Variance, Times;
      if b.upper[t] != b.lower[t] {
        PercentLocates(close[t], b.lower[t].value, b.upper[t].value);
      }
    }
  }

  // ---- Samuelson's bound: when the bands can never be touched

  /** Within k standard deviations of the mean, when k^2 is at least window - 1. */
  lemma LastWithinBands(root: real -> real, v: seq<real>, k: real)
    requires IsRoot(root) && |v| > 0 && k >= 0.0 && Times(k, k) >= (|v| - 1) as real
    ensures var d, reach := v[|v| - 1] - Mean(v), Times(k, root(Variance(v))); -reach <= d <= reach
  {
    var d, s, w1 := v[|v| - 1] - Mean(v), root(Variance(v)), (|v| - 1) as real;
    Samuelson(v);
    VarianceNonNegative(v);
    assert s >= 0.0 && Times(s, s) == Variance(v);
    TimesMono(w1, Times(k, k), Variance(v));
    TimesOfSquares(k, s);
    TimesNonNegative(k, s);
    hide Times, Variance, Mean;
    SquareOrder(d, Times(k, s));
  }

  lemma BandsAtRow(root: real -> real, close: seq<real>, window: nat, numStd: real, t: nat)
    requires window > 0 && t < |close|
    ensures var b := BandsOf(root, close, window, numStd);
            && (b.middle[t].Some? <==> window <= t + 1)
            && (b.middle[t].Some? ==>
                  var v := close[t + 1 - window..t + 1];
                  && b.middle[t] == Some(Mean(v))
                  && b.upper[t] == Some(Mean(v) + Times(numStd, root(Variance(v))))
                  && b.lower[t] == Some(Mean(v) + Times(-numStd, root(Variance(v)))))
  {
    var c := Known(close);
    KnownWindow(close, window, t);
    hide Window, Known, Mean, Variance, Times;
    var middle, std := Sma(c, window), RollingStd(root, c, window);
    if window <= t + 1 {
      var v := close[t + 1 - window..t + 1];
      assert middle[t] == MeanOf(v);
      assert std[t] == Some(root(Variance(v)));
    }
    hide Rolling, Sma, RollingStd;
  }

  /** With num_std^2 >= window - 1 no close ever leaves the bands, on any series. */
  lemma BandsNeverTouched(root: real -> real, p: Params, close: seq<real>, t: nat)
    requires IsRoot(root) && p.Valid() && Times(p.numStd, p.numStd) >= (p.window - 1) as real && t < |close|
    ensures var b := BandsOf(root, close, p.window, p.numStd); !BelowLower(close, b, t) && !AboveUpper(close, b, t)
  {
    BandsAtRow(root, close, p.window, p.numStd, t);
    hide BandsOf;
    if p.window <= t + 1 {
      var v := close[t + 1 - p.window..t + 1];
      LastWithinBands(root, v, p.numStd);
      TimesMinus(p.numStd, root(Variance(v)));
      hide Mean, Variance, Times;
    }
  }

  lemma {:induction false} DirectionsStayFlat(root: real -> real, p: Params, close: seq<real>, t: nat)
    requires IsRoot(root) && p.Valid() && Times(p.numStd, p.numStd) >= (p.window - 1) as real && t < |close|
    ensures DirectionsOf(p, close, BandsOf(root, close, p.window, p.numStd))[t] == FLAT
  {
    hide BandsOf, DirectionsOf, BelowLower, AboveUpper, CrossedAbove, CrossedBelow;
    var b := BandsOf(root, close, p.window, p.numStd);
    BandsNeverTouched(root, p, close, t);
    BandMachine(p, close, b, t);
    if t > 0 {
      DirectionsStayFlat(root, p, close, t - 1);
    }
  }

  // ---- and when they can: Samuelson's bound is attained

  lemma {:induction false} SumOfConstant(v: seq<real>, x: real)
    requires forall i :: 0 <= i < |v| ==> v[i] == x
    ensures Sum(v) == Times(|v| as real, x) && Dot(v, v) == Times(|v| as real, Times(x, x))
  {
    if v == [] {
      assert Times(0.0, x) == 0.0 == Times(0.0, Times(x, x));
    } else {
      var n := |v| - 1;
      SumOfConstant(v[..n], x);
      OneMoreTimes(n as real, x);
      OneMoreTimes(n as real, Times(x, x));
      hide Times;
    }
  }

  lemma OneMoreTimes(n: real, x: real)
    ensures Times(n + 1.0, x) == Times(n, x) + x
  {
  }

  /** A window of equal values but for its last attains the bound. */
  lemma SamuelsonAttained(v: seq<real>, x: real)
    requires |v| > 1 && forall i :: 0 <= i < |v| - 1 ==> v[i] == x
    ensures var d := v[|v| - 1] - Mean(v); Times(d, d) == Times((|v| - 1) as real, Variance(v))
    ensures v[|v| - 1] < x ==> v[|v| - 1] < Mean(v)
  {
    var c, w := Centred(v), |v|;
    var rest, d, e := c[..w - 1], c[w - 1], x - Mean(v);
    CentredSumsToZero(v);
    assert Sum(c) == Sum(rest) + d;
    assert Dot(c, c) == Dot(rest, rest) + Times(d, d);
    SumOfConstant(rest, e);
    VarianceTimesCount(v, v);
    hide Sum, Dot, Centred, Covariance, Mean;
    AttainedAlgebra(d, e, Variance(v), w as real);
  }

  lemma AttainedAlgebra(d: real, e: real, variance: real, w: real)
    requires w >= 2.0 && Times(w - 1.0, e) + d == 0.0
    requires Times(variance, w) == Times(w - 1.0, Times(e, e)) + Times(d, d)
    ensures Times(d, d) == Times(w - 1.0, variance)
    ensures d < e ==> d < 0.0
  {
    var m := w - 1.0;
    assert d == -(m * e);
    assert d * d == m * (m * (e * e));
    assert m * (variance * w) == m * (m * (e * e)) + m * (d * d);
    assert m * (variance * w) == d * d + m * (d * d);
    assert d * d + m * (d * d) == w * (d * d);
    assert (m * variance) * w == (d * d) * w;
    EqualProducts(m * variance, d * d, w);
    if d < e && d >= 0.0 {
      MulMonoStrict(0.0, e, m);
    }
  }

  lemma EqualProducts(x: real, y: real, w: real)
    requires w > 0.0 && x * w == y * w
    ensures x == y
  {
    if x < y {
      MulMonoStrict(x, y, w);
    } else if x > y {
      MulMonoStrict(y, x, w);
    }
  }

  /** window - 1 closes at 2 and a last one at 1. */
  function DropSeries(window: nat): (r: seq<real>)
    requires window > 1
    ensures |r| == window
  {
    seq(window, i => if i == window - 1 then 1.0 else 2.0)
  }

  /** With num_std^2 < window - 1 that series touches its lower band on its last row. */
  lemma DropTouchesLower(root: real -> real, p: Params)
    requires IsRoot(root) && p.Valid() && Times(p.numStd, p.numStd) < (p.window - 1) as real
    ensures var close := DropSeries(p.window);
            BelowLower(close, BandsOf(root, close, p.window, p.numStd), p.window - 1)
  {
    var close, t := DropSeries(p.window), p.window - 1;
    BandsAtRow(root, close, p.window, p.numStd, t);
    assert close[t + 1 - p.window..t + 1] == close;
    SamuelsonAttained(close, 2.0);
    VarianceNonNegative(close);
    var s, d, w1 := root(Variance(close)), close[t] - Mean(close), (p.window - 1) as real;
    assert s >= 0.0 && Times(s, s) == Variance(close) && d < 0.0;
    hide BandsOf, Mean, Variance;
    DropReach(p.numStd, s, Variance(close), w1, d);
    TimesMinus(p.numStd, s);
  }

  lemma DropReach(k: real, s: real, variance: real, w1: real, d: real)
    requires k >= 0.0 && s >= 0.0 && Times(s, s) == variance >= 0.0 && d < 0.0
    requires Times(d, d) == Times(w1, variance) && Times(k, k) < w1
    ensures Times(k, s) < -d
  {
    SquareSign(d);
    TimesNegated(d);
    TimesOfSquares(k, s);
    TimesNonNegative(k, s);
    assert Times(w1, 0.0) == 0.0;
    TimesMonoStrict(Times(k, k), w1, variance);
    hide Times;
    StrictlyBelow(Times(k, s), -d);
  }

  /** The strategy never takes a position, on any price series. */
  ghost predicate NeverTrades(root: real -> real, p: Params)
    requires p.Valid()
  {
    forall close: seq<real>, t: nat :: t < |close| ==> Signals(root, p, close).rows[t].direction == FLAT
  }

  lemma WideBandsNeverTrade(root: real -> real, p: Params)
    requires IsRoot(root) && p.Valid() && Times(p.numStd, p.numStd) >= (p.window - 1) as real
    ensures NeverTrades(root, p)
  {
    forall close: seq<real>, t: nat | t < |close|
      ensures Signals(root, p, close).rows[t].direction == FLAT
    {
      DirectionsStayFlat(root, p, close, t);
      RowDirection(root, p, close, t);
      hide Signals, DirectionsOf, BandsOf;
    }
  }

  lemma DropGoesLong(root: real -> real, p: Params)
    requires IsRoot(root) && p.Valid() && Times(p.numStd, p.numStd) < (p.window - 1) as real
    ensures Signals(root, p, DropSeries(p.window)).rows[p.window - 1].direction == LONG
  {
    hide Signals, DirectionsOf, BandsOf, BelowLower, AboveUpper, CrossedAbove, CrossedBelow, DropSeries, Times;
    var close, t := DropSeries(p.window), p.window - 1;
    var b := BandsOf(root, close, p.window, p.numStd);
    DropTouchesLower(root, p);
    BandMachine(p, close, b, t);
    BelowIsNotAbove(root, p, close, t);
    RowDirection(root, p, close, t);
  }

  /** Bollinger signals stay flat on every series exactly when num_std^2 >= window - 1. */
  lemma NeverTradesExactly(root: real -> real, p: Params)
    requires IsRoot(root) && p.Valid()
    ensures NeverTrades(root, p) <==> Times(p.numStd, p.numStd) >= (p.window - 1) as real
  {
    hide Signals, DropSeries, Times, IsRoot;
    if Times(p.numStd, p.numStd) >= (p.window - 1) as real {
      WideBandsNeverTrade(root, p);
    } else {
      DropGoesLong(root, p);
    }
  }

  lemma RowDirection(root: real -> real, p: Params, close: seq<real>, t: nat)
    requires p.Valid() && t < |close|
    ensures Signals(root, p, close).rows[t].direction ==
            DirectionsOf(p, close, BandsOf(root, close, p.window, p.numStd))[t]
  {
    hide BandsOf, DirectionsOf, ReasonsOf, IndicatorsOf;
  }

  lemma BelowIsNotAbove(root: real -> real, p: Params, close: seq<real>, t: nat)
    requires IsRoot(root) && p.Valid() && t < |close|
    ensures var b := BandsOf(root, close, p.window, p.numStd); BelowLower(close, b, t) ==> !AboveUpper(close, b, t)
  {
    BandsAtRow(root, close, p.window, p.numStd, t);
    hide BandsOf;
    if p.window <= t + 1 {
      var v := close[t + 1 - p.window..t + 1];
      VarianceNonNegative(v);
      assert root(Variance(v)) >= 0.0;
      TimesNonNegative(p.numStd, root(Variance(v)));
      TimesMinus(p.numStd, root(Variance(v)));
      hide Mean, Variance, Times;
    }
  }
}
