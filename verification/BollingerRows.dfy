/** What the Bollinger strategy emits, in terms of the closes alone. */
module BollingerRows {
  import opened Prelude
  import opened RealMath
  import opened Statistics
  import opened MovingAverage
  import opened Simulation
  import opened SignalFrame
  import opened Bollinger

  /** The close is more than num_std deviations above the mean of its window. */
  ghost predicate Above(root: real -> real, p: Params, close: seq<real>, t: nat)
    requires t < |close|
  {
    p.window <= t + 1 &&
    var v := close[t + 1 - p.window..t + 1]; close[t] > Mean(v) + p.numStd * root(Variance(v))
  }

  ghost predicate Below(root: real -> real, p: Params, close: seq<real>, t: nat)
    requires t < |close|
  {
    p.window <= t + 1 &&
    var v := close[t + 1 - p.window..t + 1]; close[t] < Mean(v) - p.numStd * root(Variance(v))
  }

  /** The close came from at or below the mean of its window to above the mean of the next. */
  ghost predicate Rises(p: Params, close: seq<real>, t: nat)
    requires p.Valid() && t < |close|
  {
    p.window <= t && close[t - 1] <= Mean(close[t - p.window..t]) && close[t] > Mean(close[t + 1 - p.window..t + 1])
  }

  ghost predicate Falls(p: Params, close: seq<real>, t: nat)
    requires p.Valid() && t < |close|
  {
    p.window <= t && close[t - 1] >= Mean(close[t - p.window..t]) && close[t] < Mean(close[t + 1 - p.window..t + 1])
  }

  /** What row t says: the touches and crossings of this row, else the row before it. */
  ghost predicate RowFollows(root: real -> real, p: Params, close: seq<real>, t: nat, before: Option<SignalDirection>, row: SignalRow)
    requires p.Valid() && t < |close|
  {
    var above, below := Above(root, p, close, t), Below(root, p, close, t);
    var rises, falls := p.exitAtMiddle && Rises(p, close, t), p.exitAtMiddle && Falls(p, close, t);
    && row.direction == (if above then (if p.allowShort then SHORT else FLAT)
                         else if below then LONG
                         else if rises || falls then FLAT
                         else if before.Some? then before.value else FLAT)
    && row.strength == (if row.direction == FLAT then 0.0 else 1.0)
    && row.reason == (if before == Some(row.direction) then ""
                      else if above then
                        if p.allowShort then "close above the upper band — overbought, entering short"
                        else "close above the upper band — overbought, exiting/staying flat"
                      else if below then "close below the lower band — oversold, entering long"
                      else if falls then "close crossed below the middle band — exiting short"
                      else if rises then "close crossed above the middle band — exiting long"
                      else "")
  }

  lemma TouchMeans(root: real -> real, p: Params, close: seq<real>, t: nat)
    requires p.Valid() && t < |close|
    ensures var b := BandsOf(root, close, p.window, p.numStd);
            && (AboveUpper(close, b, t) <==> Above(root, p, close, t))
            && (BelowLower(close, b, t) <==> Below(root, p, close, t))
  {
    BandsAtRow(root, close, p.window, p.numStd, t);
    hide BandsOf, Mean, Variance;
  }

  lemma CrossMeans(root: real -> real, p: Params, close: seq<real>, t: nat)
    requires p.Valid() && t < |close|
    ensures var b := BandsOf(root, close, p.window, p.numStd);
            && (CrossedAbove(close, b, t) <==> Rises(p, close, t))
            && (CrossedBelow(close, b, t) <==> Falls(p, close, t))
  {
    hide BandsOf, Mean, Variance, Times;
    BandsAtRow(root, close, p.window, p.numStd, t);
    if t > 0 {
      BandsAtRow(root, close, p.window, p.numStd, t - 1);
    }
  }

  /** The reason of a row: that of the mask written last, where the direction changed. */
  lemma ReasonOf(p: Params, close: seq<real>, b: Bands, t: nat)
    requires Shaped(close, b) && t < |close|
    ensures ReasonsOf(p, close, b)[t] ==
            if t > 0 && DirectionsOf(p, close, b)[t - 1] == DirectionsOf(p, close, b)[t] then ""
            else if AboveUpper(close, b, t) then AboveReason(p)
            else if BelowLower(close, b, t) then ENTER_LONG
            else if p.exitAtMiddle && CrossedBelow(close, b, t) then EXIT_SHORT
            else if p.exitAtMiddle && CrossedAbove(close, b, t) then EXIT_LONG
            else ""
  {
    hide DirectionsOf, AboveUpper, BelowLower, CrossedAbove, CrossedBelow, AboveReason;
  }

  lemma RowOf(root: real -> real, p: Params, close: seq<real>, t: nat)
    requires p.Valid() && t < |close|
    ensures var b, row := BandsOf(root, close, p.window, p.numStd), Signals(root, p, close).rows[t];
            && row.direction == DirectionsOf(p, close, b)[t] && row.reason == ReasonsOf(p, close, b)[t]
            && row.strength == (if row.direction == FLAT then 0.0 else 1.0)
  {
    hide BandsOf, DirectionsOf, ReasonsOf, IndicatorsOf;
  }

  /** Every emitted row follows from the closes and the row before it. */
  lemma EmittedRows(root: real -> real, p: Params, close: seq<real>, t: nat)
    requires p.Valid() && t < |close|
    ensures var s := Signals(root, p, close);
            RowFollows(root, p, close, t, if t == 0 then None else Some(s.rows[t - 1].direction), s.rows[t])
  {
    hide Signals, BandsOf, DirectionsOf, ReasonsOf, AboveUpper, BelowLower, CrossedAbove, CrossedBelow,
      Above, Below, Rises, Falls;
    var b := BandsOf(root, close, p.window, p.numStd);
    BandMachine(p, close, b, t);
    ReasonOf(p, close, b, t);
    RowOf(root, p, close, t);
    if t > 0 {
      RowOf(root, p, close, t - 1);
    }
    TouchMeans(root, p, close, t);
    CrossMeans(root, p, close, t);
  }

  // ---- the emitted indicators

  /** The five columns, from the closes: mean, bands, their width over the mean, and where the close lies between them. */
  ghost predicate Columns(root: real -> real, p: Params, close: seq<real>, t: nat, cells: Indicators)
    requires p.Valid() && t < |close|
  {
    if p.window > t + 1 then
      "bb_middle" !in cells && "bb_upper" !in cells && "bb_lower" !in cells && "bb_bandwidth" !in cells && "bb_percent_b" !in cells
    else
      var v := close[t + 1 - p.window..t + 1];
      var reach := Times(p.numStd, root(Variance(v)));
      && "bb_middle" in cells && cells["bb_middle"] == Mean(v)
      && "bb_upper" in cells && cells["bb_upper"] == Mean(v) + reach
      && "bb_lower" in cells && cells["bb_lower"] == Mean(v) - reach
      && ("bb_bandwidth" in cells <==> Mean(v) != 0.0)
      && ("bb_bandwidth" in cells ==> Times(cells["bb_bandwidth"], Mean(v)) == 2.0 * reach)
      && ("bb_percent_b" in cells <==> reach != 0.0)
      && ("bb_percent_b" in cells ==> Times(cells["bb_percent_b"], 2.0 * reach) == close[t] - (Mean(v) - reach))
  }

  lemma NamesDiffer()
    ensures "bb_middle" != "bb_upper" && "bb_middle" != "bb_lower" && "bb_middle" != "bb_bandwidth" && "bb_middle" != "bb_percent_b"
    ensures "bb_upper" != "bb_lower" && "bb_upper" != "bb_bandwidth" && "bb_upper" != "bb_percent_b"
    ensures "bb_lower" != "bb_bandwidth" && "bb_lower" != "bb_percent_b" && "bb_bandwidth" != "bb_percent_b"
  {
    assert |"bb_middle"| == 9 && |"bb_upper"| == 8 && |"bb_bandwidth"| == 12 && |"bb_percent_b"| == 12;
    assert "bb_upper"[3] == 'u' && "bb_lower"[3] == 'l' && "bb_bandwidth"[3] == 'b' && "bb_percent_b"[3] == 'p';
  }

  lemma CellsOf(close: seq<real>, b: Bands, t: nat)
    requires Shaped(close, b) && t < |close|
    ensures var cells := IndicatorsOf(close, b)[t];
            && CellIs(cells, "bb_middle", b.middle[t]) && CellIs(cells, "bb_upper", b.upper[t])
            && CellIs(cells, "bb_lower", b.lower[t]) && CellIs(cells, "bb_bandwidth", Bandwidth(b)[t])
            && CellIs(cells, "bb_percent_b", PercentB(close, b)[t])
  {
    hide Bandwidth, PercentB, WithColumn;
    NamesDiffer();
    var c0 := NoColumns(|close|);
    var c1 := WithColumn(c0, "bb_middle", b.middle);
    var c2 := WithColumn(c1, "bb_upper", b.upper);
    var c3 := WithColumn(c2, "bb_lower", b.lower);
    var c4 := WithColumn(c3, "bb_bandwidth", Bandwidth(b));
    ColumnAdds(c0, "bb_middle", b.middle, t);
    ColumnAdds(c1, "bb_upper", b.upper, t);
    ColumnAdds(c2, "bb_lower", b.lower, t);
    ColumnAdds(c3, "bb_bandwidth", Bandwidth(b), t);
    ColumnAdds(c4, "bb_percent_b", PercentB(close, b), t);
  }

  lemma QuotientMeans(x: real, y: real)
    ensures Quotient(x, y).Some? <==> y != 0.0
    ensures y != 0.0 ==> Times(Quotient(x, y).value, y) == x
  {
    if y != 0.0 {
      DivMul(x, y);
    }
  }

  lemma WidthMeans(mean: real, reach: real, price: real)
    ensures var width := BandwidthCell(Some(mean), Some(mean + reach), Some(mean - reach));
            (width.Some? <==> mean != 0.0) && (width.Some? ==> Times(width.value, mean) == 2.0 * reach)
    ensures var percent := PercentCell(price, Some(mean + reach), Some(mean - reach));
            (percent.Some? <==> reach != 0.0) && (percent.Some? ==> Times(percent.value, 2.0 * reach) == price - (mean - reach))
  {
    hide Times, Quotient;
    assert (mean + reach) - (mean - reach) == 2.0 * reach;
    QuotientMeans(2.0 * reach, mean);
    QuotientMeans(price - (mean - reach), 2.0 * reach);
  }

  lemma EmittedColumns(root: real -> real, p: Params, close: seq<real>, t: nat)
    requires p.Valid() && t < |close|
    ensures Columns(root, p, close, t, Signals(root, p, close).indicators[t])
  {
    hide BandsOf, DirectionsOf, ReasonsOf, IndicatorsOf, Mean, Variance, Times, BandwidthCell, PercentCell;
    var b := BandsOf(root, close, p.window, p.numStd);
    BandsAtRow(root, close, p.window, p.numStd, t);
    CellsOf(close, b, t);
    if p.window <= t + 1 {
      var v := close[t + 1 - p.window..t + 1];
      var reach := Times(p.numStd, root(Variance(v)));
      TimesMinus(p.numStd, root(Variance(v)));
      assert b.lower[t] == Some(Mean(v) - reach);
      WidthMeans(Mean(v), reach, close[t]);
    } else {
      UnseededBands(root, p, close, t);
      UnseededCells(close, b, t);
    }
  }

  lemma UnseededBands(root: real -> real, p: Params, close: seq<real>, t: nat)
    requires p.Valid() && t < |close| && p.window > t + 1
    ensures var b := BandsOf(root, close, p.window, p.numStd); b.middle[t] == b.upper[t] == b.lower[t] == None
  {
    BandsAtRow(root, close, p.window, p.numStd, t);
    hide Sma, RollingStd;
  }

  lemma UnseededCells(close: seq<real>, b: Bands, t: nat)
    requires Shaped(close, b) && t < |close| && b.middle[t] == b.upper[t] == b.lower[t] == None
    ensures Bandwidth(b)[t] == None && PercentB(close, b)[t] == None
  {
  }
}
