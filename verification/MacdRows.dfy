/** What MACD emits, in terms of the closes and of its own indicator columns. */
module MacdRows {
  import opened Prelude
  import opened RealMath
  import opened Series
  import opened Statistics
  import opened MovingAverage
  import opened Simulation
  import opened SignalFrame
  import opened Macd

  /** The fast EMA less the slow one, from the row on which the slow one is seeded. */
  ghost function Spreads(close: seq<real>, fast: nat, slow: nat): (r: seq<real>)
    requires 0 < fast < slow
    ensures |r| == if |close| < slow then 0 else |close| + 1 - slow
  {
    if |close| < slow then []
    else seq(|close| + 1 - slow, i requires 0 <= i < |close| + 1 - slow => Gap(close, fast, slow, slow - 1 + i))
  }

  ghost function Gap(close: seq<real>, fast: nat, slow: nat, t: nat): real
    requires 0 < fast < slow && slow <= t + 1 && t < |close|
  {
    EmaKnown(close, fast, t);
    EmaKnown(close, slow, t);
    EmaAt(close, fast, t).value - EmaAt(close, slow, t).value
  }

  lemma LineAt(close: seq<real>, fast: nat, slow: nat, t: nat)
    requires 0 < fast < slow && t < |close|
    ensures MacdLine(close, fast, slow)[t] == if slow <= t + 1 then Some(Gap(close, fast, slow, t)) else None
  {
    EmaKnownFrom(close, fast, t);
    EmaKnownFrom(close, slow, t);
    hide EmaAt;
  }

  lemma SpreadsAre(close: seq<real>, fast: nat, slow: nat)
    requires 0 < fast < slow
    ensures forall i :: 0 <= i < |Spreads(close, fast, slow)| ==> Spreads(close, fast, slow)[i] == Gap(close, fast, slow, slow - 1 + i)
  {
    hide Gap;
  }

  /** What dropna leaves of the MACD line. */
  lemma SeededLine(close: seq<real>, fast: nat, slow: nat)
    requires 0 < fast < slow
    ensures var (labels, values) := DropNa(MacdLine(close, fast, slow));
            values == Spreads(close, fast, slow) && forall i :: 0 <= i < |labels| ==> labels[i] == slow - 1 + i
  {
    hide MacdLine, Spreads, Gap, DropNa;
    var line := MacdLine(close, fast, slow);
    var m := if |close| < slow - 1 then |close| else slow - 1;
    forall i | 0 <= i < |close|
      ensures line[i] == if slow <= i + 1 then Some(Gap(close, fast, slow, i)) else None
    {
      LineAt(close, fast, slow, i);
    }
    LeadingGap(line, m);
    SpreadsAre(close, fast, slow);
  }

  /** The signal line is an EMA of those values, seeded from the first `signal` of them. */
  lemma SignalAt(close: seq<real>, fast: nat, slow: nat, signal: nat, t: nat)
    requires 0 < fast < slow && 0 < signal && t < |close|
    ensures SignalLine(MacdLine(close, fast, slow), signal)[t] ==
            if slow <= t + 1 then EmaAt(Spreads(close, fast, slow), signal, t + 1 - slow) else None
  {
    hide EmaAt, Gap, MacdLine, DropNa, Lookup;
    SeededLine(close, fast, slow);
    var (labels, values) := DropNa(MacdLine(close, fast, slow));
    LookupConsecutive(labels, Ema(values, signal), slow - 1, t);
  }

  /** The three columns that MACD emits, on the rows that have them. */
  ghost predicate Columns(p: Params, close: seq<real>, t: nat, cells: Indicators)
    requires p.Valid() && t < |close|
  {
    var v := Spreads(close, p.fast, p.slow);
    && ("macd" in cells <==> p.slow <= t + 1)
    && ("macd_signal" in cells <==> p.slow + p.signal <= t + 2)
    && ("macd_histogram" in cells <==> p.slow + p.signal <= t + 2)
    && ("macd" in cells ==> cells["macd"] == Gap(close, p.fast, p.slow, t))
    && ("macd_signal" in cells && "macd_histogram" in cells && "macd" in cells ==>
          && Some(cells["macd_signal"]) == EmaAt(v, p.signal, t + 1 - p.slow)
          && cells["macd_histogram"] == cells["macd"] - cells["macd_signal"])
  }

  lemma NamesDiffer()
    ensures "macd" != "macd_signal" && "macd" != "macd_histogram" && "macd_signal" != "macd_histogram"
  {
    assert |"macd"| == 4 && |"macd_signal"| == 11 && |"macd_histogram"| == 14;
  }

  /** One row of the three columns. */
  lemma CellsOf(p: Params, line: Column, signal: Column, histogram: Column, t: nat)
    requires t < |line| == |signal| == |histogram|
    ensures var cells := SignalsOf(p, line, signal, histogram).indicators[t];
            && ("macd" in cells <==> line[t].Some?) && (line[t].Some? ==> cells["macd"] == line[t].value)
            && ("macd_signal" in cells <==> signal[t].Some?) && (signal[t].Some? ==> cells["macd_signal"] == signal[t].value)
            && ("macd_histogram" in cells <==> histogram[t].Some?)
            && (histogram[t].Some? ==> cells["macd_histogram"] == histogram[t].value)
  {
    hide UpMask, DownMask, TwoMasks, ForwardFill, Text, Rows;
    NamesDiffer();
  }

  /** MACD is the fast EMA less the slow one, its signal line an EMA of that, and the histogram their difference. */
  lemma EmittedColumns(p: Params, close: seq<real>, t: nat)
    requires p.Valid() && t < |close|
    ensures Columns(p, close, t, Signals(p, close).indicators[t])
  {
    hide SignalsOf, EmaAt, Gap, MacdLine, SignalLine, Spreads;
    var line := MacdLine(close, p.fast, p.slow);
    CellsOf(p, line, SignalLine(line, p.signal), Histogram(p, close), t);
    LineAt(close, p.fast, p.slow, t);
    SignalAt(close, p.fast, p.slow, p.signal, t);
    if p.slow <= t + 1 {
      EmaKnownFrom(Spreads(close, p.fast, p.slow), p.signal, t + 1 - p.slow);
    }
  }

  /** What row t says, given the row before it and the indicators of both. */
  ghost predicate RowFollows(p: Params, before: Option<SignalDirection>, prior: Indicators, cells: Indicators, row: SignalRow) {
    var known := "macd_histogram" in prior && "macd_histogram" in cells && "macd" in cells;
    var up := known && prior["macd_histogram"] <= 0.0 < cells["macd_histogram"] && (p.requireZeroLine ==> cells["macd"] > 0.0);
    var down := known && prior["macd_histogram"] >= 0.0 > cells["macd_histogram"] && (p.requireZeroLine ==> cells["macd"] < 0.0);
    && row.direction == (if up then LONG
                         else if down then (if p.allowShort then SHORT else FLAT)
                         else if before.Some? then before.value else FLAT)
    && row.strength == (if row.direction == FLAT then 0.0 else 1.0)
    && row.reason == (if up then "MACD crossed above its signal line"
                      else if down then
                        if p.allowShort then "MACD crossed below its signal line — reversing short"
                        else "MACD crossed below its signal line — exiting"
                      else "")
  }

  lemma RowOf(p: Params, line: Column, signal: Column, h: Column, t: nat)
    requires t < |line| == |signal| == |h|
    ensures var row := SignalsOf(p, line, signal, h).rows[t];
            && row.direction == Directions(p, line, h)[t]
            && row.strength == (if row.direction == FLAT then 0.0 else 1.0)
            && row.reason == (if CrossedDown(p, line, h, t) then DownReason(p) else if CrossedUp(p, line, h, t) then CROSSED_UP else "")
  {
    hide CrossedUp, CrossedDown, ForwardFill, WithColumn;
  }

  /** Every emitted row follows from the row before it and the emitted indicators of both. */
  lemma EmittedRows(p: Params, close: seq<real>, t: nat)
    requires p.Valid() && t < |close|
    ensures var s := Signals(p, close);
            RowFollows(p, if t == 0 then None else Some(s.rows[t - 1].direction),
                       if t == 0 then map[] else s.indicators[t - 1], s.indicators[t], s.rows[t])
  {
    hide SignalsOf, MacdLine, SignalLine, Histogram;
    var line, h := MacdLine(close, p.fast, p.slow), Histogram(p, close);
    var signal := SignalLine(line, p.signal);
    CrossoverMachine(p, line, h, t);
    RowOf(p, line, signal, h, t);
    CellsOf(p, line, signal, h, t);
    HistogramNeedsLine(p, close, t);
    if t > 0 {
      RowOf(p, line, signal, h, t - 1);
      CellsOf(p, line, signal, h, t - 1);
    }
    hide Directions;
  }

  lemma HistogramNeedsLine(p: Params, close: seq<real>, t: nat)
    requires p.Valid() && t < |close|
    ensures Histogram(p, close)[t].Some? ==> MacdLine(close, p.fast, p.slow)[t].Some?
  {
  }

  // ---- the sign of MACD is the direction of the trend

  /** x has gone at least as far as y in the direction of the trend. */
  predicate Beyond(up: bool, x: real, y: real) {
    if up then x >= y else x <= y
  }

  ghost predicate Trend(close: seq<real>, up: bool) {
    forall i, j :: 0 <= i <= j < |close| ==> Beyond(up, close[j], close[i])
  }

  /** Following the last value faster keeps closer to it. */
  lemma FasterIsCloser(up: bool, a: real, b: real, x: real, y: real, z: real)
    requires 0.0 <= b <= a <= 1.0 && Beyond(up, x, y) && Beyond(up, y, z)
    ensures Beyond(up, x, Blend(a, x, y)) && Beyond(up, Blend(a, x, y), Blend(b, x, z))
  {
    if up {
      FasterIsHigher(a, b, x, y, z);
    } else {
      FasterIsHigher(a, b, -x, -y, -z);
      BlendNegated(a, x, y);
      BlendNegated(b, x, z);
    }
    hide Blend;
  }

  lemma FasterIsHigher(a: real, b: real, x: real, y: real, z: real)
    requires 0.0 <= b <= a <= 1.0 && x >= y >= z
    ensures x >= Blend(a, x, y) >= Blend(b, x, z)
  {
    MulNonNegative(1.0 - a, x - y);
    MulNonNegative(a - b, x - y);
    MulNonNegative(1.0 - b, y - z);
    assert Blend(a, x, y) == x - (1.0 - a) * (x - y);
    assert Blend(a, x, y) - Blend(b, x, z) == (a - b) * (x - y) + (1.0 - b) * (y - z);
  }

  /** One more value moves a mean over n values by a share of 1 / (n + 1). */
  lemma MeanStep(v: seq<real>, n: nat)
    requires 0 < n < |v|
    ensures Mean(v[..n + 1]) == Blend(1.0 / (n + 1) as real, v[n], Mean(v[..n]))
  {
    assert v[..n + 1][..n] == v[..n];
    MeanStepAlgebra(Sum(v[..n]), v[n], n as real);
  }

  lemma MeanStepAlgebra(s: real, x: real, n: real)
    requires n > 0.0
    ensures (s + x) / (n + 1.0) == Blend(1.0 / (n + 1.0), x, s / n)
  {
    var b, m := 1.0 / (n + 1.0), s / n;
    DivMul(1.0, n + 1.0);
    DivMul(s, n);
    assert b * (n + 1.0) == 1.0 && m * n == s;
    var q := Blend(b, x, m);
    assert q * (n + 1.0) == (b * (n + 1.0)) * (x - m) + m * (n + 1.0);
    assert q * (n + 1.0) == x + m * n;
    QuotientUnique(q, s + x, n + 1.0);
  }

  lemma AlphaOrder(a: nat, b: nat)
    requires 0 < a <= b
    ensures Alpha(b) <= Alpha(a)
    ensures 1.0 / (b + 1) as real <= Alpha(a)
  {
    var x, y := a as real + 1.0, b as real + 1.0;
    DivMul(2.0, y);
    QuotientAtLeast(2.0, y, 0.0);
    MulMono(x, y, 2.0 / y);
    QuotientAtLeast(2.0, x, 2.0 / y);
    QuotientAtMost(1.0, y, 2.0 / y);
  }

  /** Along a trend an EMA stays between the mean of everything so far and the last close. */
  lemma {:induction false} EmaLeadsMean(close: seq<real>, up: bool, span: nat, t: nat)
    requires Trend(close, up) && 0 < span <= t + 1 && t < |close|
    ensures EmaAt(close, span, t).Some?
    ensures Beyond(up, close[t], EmaAt(close, span, t).value)
    ensures Beyond(up, EmaAt(close, span, t).value, Mean(close[..t + 1]))
  {
    if span == t + 1 {
      MeanWithin(close, up, t);
    } else {
      EmaLeadsMean(close, up, span, t - 1);
      MeanStep(close, t);
      AlphaOrder(span, t);
      assert Beyond(up, close[t], close[t - 1]);
      hide Mean, Blend, Alpha;
      FasterIsCloser(up, Alpha(span), 1.0 / (t + 1) as real, close[t], EmaAt(close, span, t - 1).value, Mean(close[..t]));
    }
  }

  lemma MeanWithin(close: seq<real>, up: bool, t: nat)
    requires Trend(close, up) && t < |close|
    ensures Beyond(up, close[t], Mean(close[..t + 1]))
  {
    var v := close[..t + 1];
    assert v[0] == close[0];
    forall i | 0 <= i < |v|
      ensures Beyond(up, close[t], v[i]) && Beyond(up, v[i], close[0])
    {
    }
    if up {
      MeanBetween(v, close[0], close[t]);
    } else {
      MeanBetween(v, close[t], close[0]);
    }
    hide Mean;
  }

  /** Along a trend the shorter EMA is ahead of the longer one. */
  lemma {:induction false} ShorterIsAhead(close: seq<real>, up: bool, fast: nat, slow: nat, t: nat)
    requires Trend(close, up) && 0 < fast < slow <= t + 1 && t < |close|
    ensures EmaAt(close, fast, t).Some? && EmaAt(close, slow, t).Some?
    ensures Beyond(up, close[t], EmaAt(close, fast, t).value)
    ensures Beyond(up, EmaAt(close, fast, t).value, EmaAt(close, slow, t).value)
  {
    EmaLeadsMean(close, up, fast, t);
    if slow < t + 1 {
      ShorterIsAhead(close, up, fast, slow, t - 1);
      AlphaOrder(fast, slow);
      assert Beyond(up, close[t], close[t - 1]);
      hide Mean, Blend, Alpha;
      FasterIsCloser(up, Alpha(fast), Alpha(slow), close[t], EmaAt(close, fast, t - 1).value, EmaAt(close, slow, t - 1).value);
    }
  }

  /** On closes that never fall no emitted MACD value is negative, and on closes that never rise none is positive. */
  lemma TrendSign(p: Params, close: seq<real>, up: bool, t: nat)
    requires p.Valid() && Trend(close, up) && t < |close| && "macd" in Signals(p, close).indicators[t]
    ensures var m := Signals(p, close).indicators[t]["macd"]; if up then m >= 0.0 else m <= 0.0
  {
    hide Signals, EmaAt;
    EmittedColumns(p, close, t);
    ShorterIsAhead(close, up, p.fast, p.slow, t);
  }

  // ---- a turn of the market

  /** Spans 2, 3 and 2, long only, and closes that fall to zero and recover. */
  ghost predicate Turn(p: Params, close: seq<real>) {
    p == Params(2, 3, 2, p.allowShort, false) && close == [4.0, 3.0, 2.0, 0.0, 3.0, 5.0]
  }

  lemma TurnAverages(p: Params, close: seq<real>)
    requires Turn(p, close)
    ensures EmaAt(close, 2, 2) == Some(2.5) && EmaAt(close, 3, 2) == Some(3.0)
    ensures EmaAt(close, 2, 3) == Some(5.0 / 6.0) && EmaAt(close, 3, 3) == Some(1.5)
    ensures EmaAt(close, 2, 4) == Some(41.0 / 18.0) && EmaAt(close, 3, 4) == Some(2.25)
  {
    assert close[..3][..2] == close[..2] == [4.0, 3.0] && [4.0, 3.0][..1] == [4.0] && [4.0][..0] == [];
    assert Sum(close[..3]) == 9.0;
    assert EmaAt(close, 2, 1) == Some(3.5);
  }

  /** On the row where the recovery sets in the histogram turns from -1/12 to 11/54, and the strategy goes long. */
  lemma TurnGoesLong(p: Params, close: seq<real>)
    requires Turn(p, close)
    ensures p.Valid()
    ensures var s := Signals(p, close);
            && "macd_histogram" in s.indicators[3] && s.indicators[3]["macd_histogram"] == -1.0 / 12.0
            && "macd_histogram" in s.indicators[4] && s.indicators[4]["macd_histogram"] == 11.0 / 54.0
            && s.rows[3].direction == FLAT && s.rows[4].direction == LONG && s.rows[4].strength == 1.0
  {
    hide Signals;
    TurnAverages(p, close);
    var v := Spreads(close, 2, 3);
    assert v[0] == -0.5 && v[1] == -2.0 / 3.0 && v[2] == 1.0 / 36.0;
    assert v[..2] == [v[0], v[1]] && [v[0], v[1]][..1] == [v[0]] && [v[0]][..0] == [];
    assert Sum([v[0]]) == v[0] && Sum(v[..2]) == v[0] + v[1];
    assert EmaAt(v, 2, 1) == Some(-7.0 / 12.0);
    assert EmaAt(v, 2, 2) == Some(-19.0 / 108.0);
    hide EmaAt, RowFollows;
    StaysFlat(p, close, 3);
    EmittedColumns(p, close, 3);
    EmittedColumns(p, close, 4);
    EmittedRows(p, close, 4);
    TurnRow(p, Signals(p, close).rows[3].direction, Signals(p, close).indicators[3], Signals(p, close).indicators[4], Signals(p, close).rows[4]);
  }

  lemma TurnRow(p: Params, before: SignalDirection, prior: Indicators, cells: Indicators, row: SignalRow)
    requires RowFollows(p, Some(before), prior, cells, row) && !p.requireZeroLine && "macd" in cells
    requires "macd_histogram" in prior && prior["macd_histogram"] < 0.0
    requires "macd_histogram" in cells && cells["macd_histogram"] > 0.0
    ensures row.direction == LONG && row.strength == 1.0
  {
  }

  /** Before two histogram values exist nothing can cross. */
  lemma {:induction false} StaysFlat(p: Params, close: seq<real>, t: nat)
    requires p.Valid() && t < |close| && t + 2 <= p.slow + p.signal
    ensures Signals(p, close).rows[t].direction == FLAT
  {
    hide Signals, Spreads, Gap, EmaAt;
    EmittedRows(p, close, t);
    if t > 0 {
      StaysFlat(p, close, t - 1);
      EmittedColumns(p, close, t - 1);
    }
  }
}
