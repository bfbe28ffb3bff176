/** What pair trading emits, in terms of the two legs' closes. */
module PairRows {
  import opened Prelude
  import opened RealMath
  import opened Events
  import opened Series
  import opened Statistics
  import opened MovingAverage
  import opened PairStatistics
  import opened Simulation
  import opened SignalFrame
  import opened PairTrading

  ghost function Position(index: seq<Timestamp>, x: Timestamp): (i: nat)
    requires x in index
    ensures i < |index| && index[i] == x
  {
    var i :| 0 <= i < |index| && index[i] == x;
    i
  }

  /** The log closes of a leg at some of its timestamps. */
  ghost function Logs(log: real -> real, series: PriceSeries, common: seq<Timestamp>): (r: seq<real>)
    requires series.Shaped() && forall x :: x in common ==> x in series.index
    ensures |r| == |common|
  {
    seq(|common|, u requires 0 <= u < |common| => log(series.close[Position(series.index, common[u])]))
  }

  lemma LogsAreKnown(log: real -> real, series: PriceSeries, common: seq<Timestamp>)
    requires series.Shaped() && Increasing(series.index) && forall x :: x in common ==> x in series.index
    ensures LogPrices(log, series, common) == Known(Logs(log, series, common))
  {
    hide Find;
    forall u | 0 <= u < |common|
      ensures Find(series.index, Known(series.close), common[u]) == Some(series.close[Position(series.index, common[u])])
    {
      FindLabelled(series.index, Known(series.close), Position(series.index, common[u]));
    }
  }

  // ---- the pair on its common rows, a and b being the legs' log closes

  /** How many units of b hedge one of a: one, or the slope cov / var of the last `lookback` rows. */
  ghost function RatioAt(p: Params, a: seq<real>, b: seq<real>, u: nat): Option<real>
    requires u < |a| == |b|
  {
    if !p.useHedgeRatio then Some(1.0)
    else if p.lookback > u + 1 then None
    else
      var v, w := a[u + 1 - p.lookback..u + 1], b[u + 1 - p.lookback..u + 1];
      if Variance(w) > 0.0 then Some(Covariance(v, w) / Variance(w)) else None
  }

  /** log(primary) - ratio * log(pair). */
  ghost function SpreadAt(p: Params, a: seq<real>, b: seq<real>, u: nat): Option<real>
    requires u < |a| == |b|
  {
    match RatioAt(p, a, b, u)
    case None => None
    case Some(ratio) => Some(a[u] - ratio * b[u])
  }

  /** v holds the last `lookback` spreads up to row u, all of which exist. */
  ghost predicate LastSpreads(p: Params, a: seq<real>, b: seq<real>, u: nat, v: seq<real>)
    requires u < |a| == |b|
  {
    && |v| == p.lookback <= u + 1
    && forall i :: 0 <= i < |v| ==> SpreadAt(p, a, b, u + 1 - |v| + i) == Some(v[i])
  }

  /** The log returns of a leg. */
  ghost function Returns(a: seq<real>): (r: seq<real>)
    ensures |r| == if a == [] then 0 else |a| - 1
  {
    if a == [] then [] else seq(|a| - 1, i requires 0 <= i < |a| - 1 => a[i + 1] - a[i])
  }

  /** c is the correlation of the last `lookback` returns up to row u, which exists where both legs' returns vary. */
  ghost predicate Correlates(root: real -> real, p: Params, a: seq<real>, b: seq<real>, u: nat, c: Option<real>)
    requires u < |a| == |b|
  {
    if p.lookback > u then c == None
    else
      var v, w := Returns(a)[u - p.lookback..u], Returns(b)[u - p.lookback..u];
      var scale := root(Times(Variance(v), Variance(w)));
      (c.Some? <==> scale > 0.0) && (c.Some? ==> Times(c.value, scale) == Covariance(v, w))
  }

  /** The last `lookback` returns of both legs up to row u vary, and correlate by at least min_correlation. */
  ghost predicate Coupled(root: real -> real, p: Params, a: seq<real>, b: seq<real>, u: nat)
    requires u < |a| == |b|
  {
    p.lookback <= u &&
    var v, w := Returns(a)[u - p.lookback..u], Returns(b)[u - p.lookback..u];
    var scale := root(Times(Variance(v), Variance(w)));
    scale > 0.0 && Covariance(v, w) >= Times(p.minCorrelation, scale)
  }

  /** These spreads vary, so that distances from their mean can be measured. */
  ghost predicate Varies(root: real -> real, v: seq<real>) {
    |v| > 0 && root(Variance(v)) > 0.0
  }

  /** The last spread lies at least entry_z deviations below the mean. */
  ghost predicate FarBelow(root: real -> real, p: Params, v: seq<real>) {
    Varies(root, v) && v[|v| - 1] <= Mean(v) - Times(p.entryZ, root(Variance(v)))
  }

  ghost predicate FarAbove(root: real -> real, p: Params, v: seq<real>) {
    Varies(root, v) && v[|v| - 1] >= Mean(v) + Times(p.entryZ, root(Variance(v)))
  }

  /** The last spread lies within exit_z deviations of the mean. */
  ghost predicate Near(root: real -> real, p: Params, v: seq<real>) {
    Varies(root, v) &&
    Mean(v) - Times(p.exitZ, root(Variance(v))) <= v[|v| - 1] <= Mean(v) + Times(p.exitZ, root(Variance(v)))
  }

  /** The legs are coupled, and the last `lookback` spreads exist and vary. */
  ghost predicate Measured(root: real -> real, p: Params, a: seq<real>, b: seq<real>, u: nat)
    requires u < |a| == |b|
  {
    Coupled(root, p, a, b, u) && exists v :: LastSpreads(p, a, b, u, v) && Varies(root, v)
  }

  /** The primary leg is cheap against the pair. */
  ghost predicate Cheap(root: real -> real, p: Params, a: seq<real>, b: seq<real>, u: nat)
    requires u < |a| == |b|
  {
    Coupled(root, p, a, b, u) && exists v :: LastSpreads(p, a, b, u, v) && FarBelow(root, p, v)
  }

  /** The primary leg is rich against the pair. */
  ghost predicate Rich(root: real -> real, p: Params, a: seq<real>, b: seq<real>, u: nat)
    requires u < |a| == |b|
  {
    Coupled(root, p, a, b, u) && exists v :: LastSpreads(p, a, b, u, v) && FarAbove(root, p, v)
  }

  /** The spread has reverted. */
  ghost predicate Reverted(root: real -> real, p: Params, a: seq<real>, b: seq<real>, u: nat)
    requires u < |a| == |b|
  {
    Coupled(root, p, a, b, u) && exists v :: LastSpreads(p, a, b, u, v) && Near(root, p, v)
  }

  // ---- the model's columns say the same

  lemma RatioColumn(p: Params, a: seq<real>, b: seq<real>, u: nat)
    requires p.Valid() && u < |a| == |b|
    ensures Beta(p, Known(a), Known(b))[u] == RatioAt(p, a, b, u)
  {
    hide Window, Known, Covariance, Variance;
    KnownWindow(a, p.lookback, u);
    KnownWindow(b, p.lookback, u);
    var x, y := Known(a), Known(b);
    if p.useHedgeRatio && p.lookback <= u + 1 {
      assert HedgeRatio(x, y, p.lookback)[u] == SlopeOf(a[u + 1 - p.lookback..u + 1], b[u + 1 - p.lookback..u + 1]);
    }
  }

  lemma SpreadColumn(p: Params, a: seq<real>, b: seq<real>, u: nat)
    requires p.Valid() && u < |a| == |b|
    ensures Spread(Known(a), Beta(p, Known(a), Known(b)), Known(b))[u] == SpreadAt(p, a, b, u)
  {
    hide Beta, RatioAt;
    RatioColumn(p, a, b, u);
  }

  lemma SpreadWindow(p: Params, a: seq<real>, b: seq<real>, u: nat)
    requires p.Valid() && u < |a| == |b|
    ensures var w := Window(Spread(Known(a), Beta(p, Known(a), Known(b)), Known(b)), p.lookback, u);
            forall v :: LastSpreads(p, a, b, u, v) <==> w == Some(v)
  {
    hide Beta, Spread, SpreadAt, Known;
    var c := Spread(Known(a), Beta(p, Known(a), Known(b)), Known(b));
    forall i | 0 <= i < |a|
      ensures c[i] == SpreadAt(p, a, b, i)
    {
      SpreadColumn(p, a, b, i);
    }
    WindowIs(c, p.lookback, u);
  }

  lemma WindowIs(c: Column, window: nat, u: nat)
    requires window > 0 && u < |c|
    ensures forall v :: Window(c, window, u) == Some(v) <==>
              |v| == window <= u + 1 && forall i :: 0 <= i < |v| ==> c[u + 1 - |v| + i] == Some(v[i])
  {
    forall v: seq<real> | |v| == window <= u + 1 && forall i :: 0 <= i < |v| ==> c[u + 1 - |v| + i] == Some(v[i])
      ensures Window(c, window, u) == Some(v)
    {
      forall i | u + 1 - window <= i <= u
        ensures c[i].Some?
      {
        assert c[u + 1 - |v| + (i - (u + 1 - window))] == Some(v[i - (u + 1 - window)]);
      }
      assert Window(c, window, u).value == v;
    }
  }

  /** Where the z-score exists, and what it is worth. */
  lemma ZColumn(root: real -> real, p: Params, a: seq<real>, b: seq<real>, u: nat)
    requires p.Valid() && u < |a| == |b|
    ensures var z := StatsOf(root, p, Known(a), Known(b)).z[u];
            (z.Some? <==> exists v :: LastSpreads(p, a, b, u, v) && Varies(root, v)) &&
            forall v :: LastSpreads(p, a, b, u, v) && z.Some? ==> Scaled(root, z.value, v)
  {
    hide Window, Beta, Spread, LastSpreads, Mean, Variance, Times, RollingCorrelation, RollingZScore;
    var c := Spread(Known(a), Beta(p, Known(a), Known(b)), Known(b));
    SpreadWindow(p, a, b, u);
    ZMeans(root, c, p.lookback, u);
    assert StatsOf(root, p, Known(a), Known(b)).z == RollingZScore(root, c, p.lookback);
  }

  /** z deviations lie between the last of these spreads and their mean. */
  ghost predicate Scaled(root: real -> real, z: real, v: seq<real>) {
    Varies(root, v) && Times(z, root(Variance(v))) == v[|v| - 1] - Mean(v)
  }

  lemma ZMeans(root: real -> real, c: Column, window: nat, u: nat)
    requires window > 0 && u < |c|
    ensures var z, w := RollingZScore(root, c, window)[u], Window(c, window, u);
            (z.Some? <==> w.Some? && root(Variance(w.value)) > 0.0) && (z.Some? ==> Scaled(root, z.value, w.value))
  {
    var z, w := RollingZScore(root, c, window)[u], Window(c, window, u);
    if w.Some? {
      var v := w.value;
      assert Sma(c, window)[u] == MeanOf(v) && RollingStd(root, c, window)[u] == Some(root(Variance(v)));
      assert c[u] == Some(v[window - 1]);
      hide Sma, RollingStd, Window, Mean, Variance, Times;
      if root(Variance(v)) > 0.0 {
        RatioTimes(v[window - 1] - Mean(v), root(Variance(v)), z.value);
      }
    }
  }

  lemma ReturnColumn(a: seq<real>, window: nat, u: nat)
    requires window > 0 && u < |a|
    ensures Window(Difference(Known(a), Shift(Known(a))), window, u) ==
            if window <= u then Some(Returns(a)[u - window..u]) else None
  {
    var c := Difference(Known(a), Shift(Known(a)));
    assert c[0] == None;
    assert forall i :: 0 < i <= u ==> c[i] == Some(Returns(a)[i - 1]);
    if window <= u {
      assert Window(c, window, u).Some?;
      assert Window(c, window, u).value == Returns(a)[u - window..u];
    }
  }

  lemma CorrelationColumn(root: real -> real, p: Params, a: seq<real>, b: seq<real>, u: nat)
    requires IsRoot(root) && p.Valid() && u < |a| == |b|
    ensures var c := StatsOf(root, p, Known(a), Known(b)).correlation[u];
            (c.Some? && !Decoupled(p, c) <==> Coupled(root, p, a, b, u)) && Correlates(root, p, a, b, u, c)
  {
    hide Window, Difference, Shift, Known, Returns, Beta, Spread, RollingZScore, IsRoot, Covariance, Variance, Times;
    ReturnColumn(a, p.lookback, u);
    ReturnColumn(b, p.lookback, u);
    var c := StatsOf(root, p, Known(a), Known(b)).correlation[u];
    if p.lookback <= u {
      var v, w := Returns(a)[u - p.lookback..u], Returns(b)[u - p.lookback..u];
      CorrelationMeans(root, p, v, w);
    }
  }

  lemma CorrelationMeans(root: real -> real, p: Params, v: seq<real>, w: seq<real>)
    requires IsRoot(root) && |v| == |w|
    ensures var c, scale := CorrelationOf(root, v, w), root(Times(Variance(v), Variance(w)));
            && (c.Some? <==> scale > 0.0)
            && (c.Some? ==> Times(c.value, scale) == Covariance(v, w))
            && (c.Some? && !Decoupled(p, c) <==> scale > 0.0 && Covariance(v, w) >= Times(p.minCorrelation, scale))
  {
    var scale := root(Times(Variance(v), Variance(w)));
    if scale > 0.0 {
      ClipIsIdle(root, v, w);
      hide CorrelationOf, Covariance, Variance, IsRoot;
      QuotientCompares(Covariance(v, w), scale, p.minCorrelation);
    }
  }

  lemma QuotientCompares(x: real, scale: real, m: real)
    requires scale > 0.0
    ensures Times(x / scale, scale) == x
    ensures x / scale >= m <==> x >= Times(m, scale)
  {
    DivMul(x, scale);
    var q := x / scale;
    if q >= m {
      TimesMono(m, q, scale);
    } else {
      TimesMonoStrict(q, m, scale);
    }
  }

  lemma DeviationCompares(z: real, s: real, d: real, k: real)
    requires s > 0.0 && Times(z, s) == d
    ensures z <= -k <==> d <= -Times(k, s)
    ensures z >= k <==> d >= Times(k, s)
  {
    TimesMinus(k, s);
    if z <= -k {
      TimesMono(z, -k, s);
    } else {
      TimesMonoStrict(-k, z, s);
    }
    if z >= k {
      TimesMono(k, z, s);
    } else {
      TimesMonoStrict(z, k, s);
    }
    hide Times;
  }

  lemma DistanceMeans(root: real -> real, p: Params, z: real, v: seq<real>)
    requires Scaled(root, z, v)
    ensures FarBelow(root, p, v) <==> z <= -p.entryZ
    ensures FarAbove(root, p, v) <==> z >= p.entryZ
    ensures Near(root, p, v) <==> Abs(z) <= p.exitZ
  {
    var s, d := root(Variance(v)), v[|v| - 1] - Mean(v);
    hide Mean, Variance, Times;
    DeviationCompares(z, s, d, p.entryZ);
    DeviationCompares(z, s, d, p.exitZ);
    DeviationCompares(z, s, d, -p.exitZ);
    TimesMinus(p.exitZ, s);
  }

  /** The four events of a row, spelled out. */
  lemma EventsMean(root: real -> real, p: Params, a: seq<real>, b: seq<real>, u: nat)
    requires IsRoot(root) && p.Valid() && u < |a| == |b|
    ensures var x := StatsOf(root, p, Known(a), Known(b));
            && (EntersLong(p, x.z[u], x.correlation[u]) <==> Cheap(root, p, a, b, u))
            && (EntersShort(p, x.z[u], x.correlation[u]) <==> Rich(root, p, a, b, u))
            && (Reverts(p, x.z[u], x.correlation[u]) <==> Reverted(root, p, a, b, u))
            && (Unusable(p, x.z[u], x.correlation[u]) <==> !Measured(root, p, a, b, u))
  {
    hide StatsOf, LastSpreads, Coupled, IsRoot, Varies, FarBelow, FarAbove, Near;
    var x := StatsOf(root, p, Known(a), Known(b));
    ZColumn(root, p, a, b, u);
    CorrelationColumn(root, p, a, b, u);
    SpreadsAreUnique(p, a, b, u);
    if v :| LastSpreads(p, a, b, u, v) && Varies(root, v) {
      DistanceMeans(root, p, x.z[u].value, v);
    } else {
      NothingVaries(root, p);
    }
    hide Scaled, Decoupled;
  }

  lemma NothingVaries(root: real -> real, p: Params)
    ensures forall v :: FarBelow(root, p, v) || FarAbove(root, p, v) || Near(root, p, v) ==> Varies(root, v)
  {
  }

  lemma SpreadsAreUnique(p: Params, a: seq<real>, b: seq<real>, u: nat)
    requires u < |a| == |b|
    ensures forall v, w :: LastSpreads(p, a, b, u, v) && LastSpreads(p, a, b, u, w) ==> v == w
  {
    hide SpreadAt;
  }

  // ---- the emitted rows

  /** Row s entered on the given side, and no row after it up to j entered, reverted or could not be measured. */
  ghost predicate HeldSince(root: real -> real, p: Params, a: seq<real>, b: seq<real>, s: nat, j: nat, long: bool)
    requires j < |a| == |b|
  {
    && s <= j
    && (if long then Cheap(root, p, a, b, s) else Rich(root, p, a, b, s))
    && forall u :: s < u <= j ==>
         && Measured(root, p, a, b, u) && !Cheap(root, p, a, b, u) && !Rich(root, p, a, b, u) && !Reverted(root, p, a, b, u)
  }

  ghost predicate Holds(root: real -> real, p: Params, a: seq<real>, b: seq<real>, common: seq<Timestamp>, now: Timestamp, long: bool)
    requires |a| == |b| == |common|
  {
    exists s: nat, j: nat :: j < |common| && common[j] == now && HeldSince(root, p, a, b, s, j, long)
  }

  lemma EnteredMeans(root: real -> real, p: Params, a: seq<real>, b: seq<real>, common: seq<Timestamp>, now: Timestamp)
    requires IsRoot(root) && p.Valid() && |a| == |b| == |common|
    ensures var x := StatsOf(root, p, Known(a), Known(b));
            && (EnteredLast(p, x, common, now, LONG) <==> Holds(root, p, a, b, common, now, true))
            && (EnteredLast(p, x, common, now, SHORT) <==> Holds(root, p, a, b, common, now, false))
  {
    hide StatsOf, Cheap, Rich, Reverted, Measured, EntersLong, EntersShort, Reverts, Unusable, IsRoot;
    var x := StatsOf(root, p, Known(a), Known(b));
    forall u: nat | u < |a|
      ensures EntersLong(p, x.z[u], x.correlation[u]) <==> Cheap(root, p, a, b, u)
      ensures EntersShort(p, x.z[u], x.correlation[u]) <==> Rich(root, p, a, b, u)
      ensures HasEvent(p, x, u) <==> Cheap(root, p, a, b, u) || Rich(root, p, a, b, u) || Reverted(root, p, a, b, u) || !Measured(root, p, a, b, u)
    {
      EventsMean(root, p, a, b, u);
    }
    hide HasEvent;
    forall s: nat, j: nat | s <= j < |a|
      ensures LatestEvent(p, x, s, j) && Enters(p, x, s, LONG) <==> HeldSince(root, p, a, b, s, j, true)
      ensures LatestEvent(p, x, s, j) && Enters(p, x, s, SHORT) <==> HeldSince(root, p, a, b, s, j, false)
    {
    }
  }

  lemma CommonIsShared(index: seq<Timestamp>, other: seq<Timestamp>)
    ensures forall x :: x in Common(index, other) ==> x in index && x in other
  {
    forall x | x in Common(index, other)
      ensures x in index && x in other
    {
      CommonMember(index, other, x);
    }
  }

  /**
   * What the strategy emits for a bar of the primary leg: long exactly when the pair has that bar too and, since
   * a row on which the primary was cheap against the pair, nothing has happened; short the same since it was rich.
   */
  lemma EmittedPositions(log: real -> real, root: real -> real, describe: (Event, real) -> string, p: Params,
                         primary: PriceSeries, pair: PriceSeries, i: nat)
    requires IsRoot(root) && p.Valid() && primary.Shaped() && pair.Shaped() && i < |primary.index|
    requires Increasing(primary.index) && Increasing(pair.index)
    ensures forall x :: x in Common(primary.index, pair.index) ==> x in primary.index && x in pair.index
    ensures var common := Common(primary.index, pair.index);
            var a, b := Logs(log, primary, common), Logs(log, pair, common);
            var row := Signals(log, root, describe, p, primary, pair).rows[i];
            && (row.direction == LONG <==> Holds(root, p, a, b, common, primary.index[i], true))
            && (row.direction == SHORT <==> Holds(root, p, a, b, common, primary.index[i], false))
  {
    hide Signals, Common, LogPrices, Logs, StatsOf, EnteredLast, Holds, IsRoot;
    var common := Common(primary.index, pair.index);
    CommonIsShared(primary.index, pair.index);
    LogsAreKnown(log, primary, common);
    LogsAreKnown(log, pair, common);
    EmittedRows(log, root, describe, p, primary, pair, i);
    EnteredMeans(root, p, Logs(log, primary, common), Logs(log, pair, common), common, primary.index[i]);
  }

  // ---- reasons, strengths and indicators

  /** The reason of a common row names what happened on it, with the number behind it. */
  ghost predicate Explains(root: real -> real, p: Params, describe: (Event, real) -> string,
                           a: seq<real>, b: seq<real>, u: nat, z: Option<real>, c: Option<real>, reason: string)
    requires u < |a| == |b|
  {
    if c.Some? && c.value < p.minCorrelation then reason == describe(Decouple, c.value)
    else if Cheap(root, p, a, b, u) then z.Some? && reason == describe(EnterLong, z.value)
    else if Rich(root, p, a, b, u) then z.Some? && reason == describe(EnterShort, z.value)
    else if Reverted(root, p, a, b, u) then z.Some? && reason == describe(Revert, z.value)
    else reason == ""
  }

  /** A cell of row i is that of common row j. */
  lemma Placed<T>(index: seq<Timestamp>, common: seq<Timestamp>, c: seq<Option<T>>, i: nat, j: nat)
    requires |common| == |c| && Increasing(common) && i < |index| && j < |common| && common[j] == index[i]
    ensures Place(index, common, c)[i] == c[j]
  {
    FindLabelled(common, c, j);
  }

  lemma NamesDiffer()
    ensures "pair_spread" != "pair_zscore" && "pair_spread" != "pair_correlation" && "pair_spread" != "pair_hedge_ratio"
    ensures "pair_zscore" != "pair_correlation" && "pair_zscore" != "pair_hedge_ratio" && "pair_correlation" != "pair_hedge_ratio"
  {
    assert "pair_spread"[5] == 's' && "pair_zscore"[5] == 'z' && "pair_correlation"[5] == 'c' && "pair_hedge_ratio"[5] == 'h';
  }

  lemma FrameCells(p: Params, describe: (Event, real) -> string, index: seq<Timestamp>, common: seq<Timestamp>, x: Stats, i: nat, j: nat)
    requires |common| == |x.spread| == |x.z| == |x.correlation| == |x.beta| && Increasing(common)
    requires i < |index| && j < |common| && common[j] == index[i]
    ensures var cells := FrameOf(p, describe, index, common, x).indicators[i];
            && CellIs(cells, "pair_spread", x.spread[j]) && CellIs(cells, "pair_zscore", x.z[j])
            && CellIs(cells, "pair_correlation", x.correlation[j]) && CellIs(cells, "pair_hedge_ratio", x.beta[j])
  {
    hide TargetsOf, ReasonsOf, Rows, Text, FlatWhereMissing, WithColumn, Place;
    NamesDiffer();
    var c0 := NoColumns(|index|);
    var c1 := WithColumn(c0, "pair_spread", Place(index, common, x.spread));
    var c2 := WithColumn(c1, "pair_zscore", Place(index, common, x.z));
    var c3 := WithColumn(c2, "pair_correlation", Place(index, common, x.correlation));
    ColumnAdds(c0, "pair_spread", Place(index, common, x.spread), i);
    ColumnAdds(c1, "pair_zscore", Place(index, common, x.z), i);
    ColumnAdds(c2, "pair_correlation", Place(index, common, x.correlation), i);
    ColumnAdds(c3, "pair_hedge_ratio", Place(index, common, x.beta), i);
    Placed(index, common, x.spread, i, j);
    Placed(index, common, x.z, i, j);
    Placed(index, common, x.correlation, i, j);
    Placed(index, common, x.beta, i, j);
  }

  lemma FrameRow(p: Params, describe: (Event, real) -> string, index: seq<Timestamp>, common: seq<Timestamp>, x: Stats, i: nat, j: nat)
    requires |common| == |x.spread| == |x.z| == |x.correlation| == |x.beta| && Increasing(common)
    requires i < |index| && j < |common| && common[j] == index[i]
    ensures var row, reason := FrameOf(p, describe, index, common, x).rows[i], ReasonCell(p, describe, x.z[j], x.correlation[j]);
            && row.strength == (if row.direction == FLAT then 0.0 else 1.0)
            && row.reason == (if reason.Some? then reason.value else "")
  {
    hide TargetsOf, ReasonCell, WithColumn, Place;
    Placed(index, common, ReasonsOf(p, describe, x), i, j);
  }

  /** Spread, ratio, z-score and correlation of a common row, as the emitted indicators of its bar. */
  ghost predicate Columns(root: real -> real, p: Params, a: seq<real>, b: seq<real>, u: nat, cells: Indicators)
    requires u < |a| == |b|
  {
    && CellIs(cells, "pair_spread", SpreadAt(p, a, b, u)) && CellIs(cells, "pair_hedge_ratio", RatioAt(p, a, b, u))
    && ("pair_zscore" in cells <==> exists v :: LastSpreads(p, a, b, u, v) && Varies(root, v))
    && ("pair_zscore" in cells ==> forall v :: LastSpreads(p, a, b, u, v) ==> Scaled(root, cells["pair_zscore"], v))
    && Correlates(root, p, a, b, u, CellOf(cells, "pair_correlation"))
  }

  ghost function CellOf(cells: Indicators, name: string): Option<real> {
    if name in cells then Some(cells[name]) else None
  }

  /** The rest of an emitted row: full strength while positioned, a reason for every event, and the four indicators. */
  lemma EmittedColumns(log: real -> real, root: real -> real, describe: (Event, real) -> string, p: Params,
                       primary: PriceSeries, pair: PriceSeries, i: nat, j: nat)
    requires IsRoot(root) && p.Valid() && primary.Shaped() && pair.Shaped() && i < |primary.index|
    requires Increasing(primary.index) && Increasing(pair.index)
    requires j < |Common(primary.index, pair.index)| && Common(primary.index, pair.index)[j] == primary.index[i]
    ensures forall x :: x in Common(primary.index, pair.index) ==> x in primary.index && x in pair.index
    ensures var common, s := Common(primary.index, pair.index), Signals(log, root, describe, p, primary, pair);
            var a, b, row, cells := Logs(log, primary, common), Logs(log, pair, common), s.rows[i], s.indicators[i];
            && row.strength == (if row.direction == FLAT then 0.0 else 1.0)
            && Explains(root, p, describe, a, b, j, CellOf(cells, "pair_zscore"), CellOf(cells, "pair_correlation"), row.reason)
            && Columns(root, p, a, b, j, cells)
  {
    hide Common, LogPrices, Logs, StatsOf, FrameOf, IsRoot, Increasing, Place, Cheap, Rich, Reverted, Measured;
    hide Correlates, Scaled, LastSpreads, RatioAt, SpreadAt, Varies;
    var common := Common(primary.index, pair.index);
    CommonIsShared(primary.index, pair.index);
    CommonIncreases(primary.index, pair.index);
    LogsAreKnown(log, primary, common);
    LogsAreKnown(log, pair, common);
    var a, b := Logs(log, primary, common), Logs(log, pair, common);
    var x := StatsOf(root, p, Known(a), Known(b));
    FrameRow(p, describe, primary.index, common, x, i, j);
    FrameCells(p, describe, primary.index, common, x, i, j);
    CellsMean(root, p, a, b, j);
    EventsMean(root, p, a, b, j);
    hide EntersLong, EntersShort, Reverts, Unusable;
    ReasonMeans(root, p, describe, a, b, j);
  }

  lemma CellsMean(root: real -> real, p: Params, a: seq<real>, b: seq<real>, u: nat)
    requires IsRoot(root) && p.Valid() && u < |a| == |b|
    ensures var x := StatsOf(root, p, Known(a), Known(b));
            && x.spread[u] == SpreadAt(p, a, b, u) && x.beta[u] == RatioAt(p, a, b, u)
            && (x.z[u].Some? <==> exists v :: LastSpreads(p, a, b, u, v) && Varies(root, v))
            && (x.z[u].Some? ==> forall v :: LastSpreads(p, a, b, u, v) ==> Scaled(root, x.z[u].value, v))
            && Correlates(root, p, a, b, u, x.correlation[u])
  {
    hide IsRoot, Beta, Spread, RatioAt, SpreadAt, LastSpreads, Varies, Scaled, Correlates, RollingZScore, RollingCorrelation;
    ZColumn(root, p, a, b, u);
    CorrelationColumn(root, p, a, b, u);
    RatioColumn(p, a, b, u);
    SpreadColumn(p, a, b, u);
  }

  lemma ReasonMeans(root: real -> real, p: Params, describe: (Event, real) -> string, a: seq<real>, b: seq<real>, u: nat)
    requires IsRoot(root) && p.Valid() && u < |a| == |b|
    ensures var x := StatsOf(root, p, Known(a), Known(b));
            var reason := ReasonCell(p, describe, x.z[u], x.correlation[u]);
            Explains(root, p, describe, a, b, u, x.z[u], x.correlation[u], if reason.Some? then reason.value else "")
  {
    hide StatsOf, IsRoot, Cheap, Rich, Reverted, Measured;
    var x := StatsOf(root, p, Known(a), Known(b));
    EventsMean(root, p, a, b, u);
    EventsAreDisjoint(p, x.z[u], x.correlation[u]);
  }
}
