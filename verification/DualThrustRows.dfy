/** What Dual Thrust emits, in terms of the bars alone. */
module DualThrustRows {
  import opened Prelude
  import opened RealMath
  import opened Events
  import opened Series
  import opened Simulation
  import opened SignalFrame
  import opened DualThrust

  /** The widest move the `lookback` bars before bar t allowed: from a close up to a high, or from a low up to a close. */
  ghost predicate WidestMove(bars: seq<Bar>, lookback: nat, t: nat, r: real)
    requires lookback <= t < |bars|
  {
    && (forall i, j :: t - lookback <= i < t && t - lookback <= j < t ==>
          bars[i].high - bars[j].close <= r && bars[i].close - bars[j].low <= r)
    && (exists i, j :: t - lookback <= i < t && t - lookback <= j < t &&
          (bars[i].high - bars[j].close == r || bars[i].close - bars[j].low == r))
  }

  lemma WidestOfWindow(h: seq<real>, l: seq<real>, c: seq<real>) returns (i: nat, j: nat)
    requires |h| == |l| == |c| > 0
    ensures MaxOf(h).Some? && MaxOf(c).Some? && MinOf(c).Some? && MinOf(l).Some? && i < |c| && j < |c|
    ensures var r := Max(MaxOf(h).value - MinOf(c).value, MaxOf(c).value - MinOf(l).value);
            && (forall u, v :: 0 <= u < |c| && 0 <= v < |c| ==> h[u] - c[v] <= r && c[u] - l[v] <= r)
            && (h[i] - c[j] == r || c[i] - l[j] == r)
  {
    hide MaxOf, MinOf;
    MaxOfIsGreatest(h);
    MaxOfIsGreatest(c);
    MinOfIsLeast(c);
    MinOfIsLeast(l);
    if MaxOf(h).value - MinOf(c).value >= MaxOf(c).value - MinOf(l).value {
      i :| 0 <= i < |h| && h[i] == MaxOf(h).value;
      j :| 0 <= j < |c| && c[j] == MinOf(c).value;
    } else {
      i :| 0 <= i < |c| && c[i] == MaxOf(c).value;
      j :| 0 <= j < |l| && l[j] == MinOf(l).value;
    }
  }

  lemma PriorRangeIsWidest(bars: seq<Bar>, lookback: nat, t: nat)
    requires 0 < lookback <= t < |bars|
    ensures WidestMove(bars, lookback, t, PriorRange(bars, lookback, t))
  {
    hide MaxOf, MinOf, Max;
    var a, r := t - lookback, PriorRange(bars, lookback, t);
    var h, l, c := Highs(bars)[a..t], Lows(bars)[a..t], Closes(bars)[a..t];
    var x, y := WidestOfWindow(h, l, c);
    forall i, j | a <= i < t && a <= j < t
      ensures bars[i].high - bars[j].close <= r && bars[i].close - bars[j].low <= r
    {
      assert h[i - a] - c[j - a] <= r && c[i - a] - l[j - a] <= r;
    }
    var i, j := a + x, a + y;
    assert h[x] == bars[i].high && c[x] == bars[i].close && c[y] == bars[j].close && l[y] == bars[j].low;
    assert bars[i].high - bars[j].close == r || bars[i].close - bars[j].low == r;
  }

  lemma WidestIsUnique(bars: seq<Bar>, lookback: nat, t: nat, r: real, s: real)
    requires lookback <= t < |bars| && WidestMove(bars, lookback, t, r) && WidestMove(bars, lookback, t, s)
    ensures r == s
  {
    var i, j :| t - lookback <= i < t && t - lookback <= j < t &&
                (bars[i].high - bars[j].close == r || bars[i].close - bars[j].low == r);
    var u, v :| t - lookback <= u < t && t - lookback <= v < t &&
                (bars[u].high - bars[v].close == s || bars[u].close - bars[v].low == s);
  }

  /** The bar reaches its upper trigger, k_upper ranges above its open. */
  ghost predicate BreaksUp(p: Params, bar: Bar, range: Option<real>) {
    range.Some? && range.value > 0.0 &&
    (if p.intrabar then bar.high else bar.close) >= bar.open + p.kUpper * range.value
  }

  ghost predicate BreaksDown(p: Params, bar: Bar, range: Option<real>) {
    range.Some? && range.value > 0.0 &&
    (if p.intrabar then bar.low else bar.close) <= bar.open - p.kLower * range.value
  }

  /** What row t says, given the range r of the bars before it and the row before it. */
  ghost predicate RowFollows(p: Params, bar: Bar, range: Option<real>, before: Option<SignalDirection>, row: SignalRow) {
    var up, down := BreaksUp(p, bar, range), BreaksDown(p, bar, range);
    && row.direction == (if down then (if p.allowShort then SHORT else FLAT)
                         else if up then LONG
                         else if before.Some? then before.value else FLAT)
    && row.strength == (if row.direction == FLAT then 0.0 else 1.0)
    && row.reason == (if down then
                        if p.intrabar then
                          if p.allowShort then "low touched the lower trigger — reversing short (intrabar)"
                          else "low touched the lower trigger — exiting (intrabar)"
                        else
                          if p.allowShort then "close broke below the lower trigger — reversing short"
                          else "close broke below the lower trigger — exiting"
                      else if up then
                        if p.intrabar then "high touched the upper trigger — long breakout (intrabar)"
                        else "close broke above the upper trigger — long breakout"
                      else "")
  }

  lemma RowOf(p: Params, bars: seq<Bar>, t: nat)
    requires p.Valid() && t < |bars|
    ensures var x, row := LevelsOf(p, bars), Signals(p, bars).rows[t];
            && row.strength == (if row.direction == FLAT then 0.0 else 1.0)
            && row.reason == (if x.down[t] then DownReason(p) else if x.up[t] then UpReason(p) else "")
  {
    hide LevelsOf, ForwardFill, WithColumn;
  }

  lemma BreakoutMeans(p: Params, bars: seq<Bar>, t: nat, r: real)
    requires p.Valid() && t < |bars| && (p.lookback <= t ==> WidestMove(bars, p.lookback, t, r))
    ensures var x, range := LevelsOf(p, bars), if p.lookback <= t then Some(r) else None;
            (x.up[t] <==> BreaksUp(p, bars[t], range)) && (x.down[t] <==> BreaksDown(p, bars[t], range))
  {
    hide LevelsOf, PriorRange, WidestMove;
    BreakoutLevels(p, bars, t);
    if p.lookback <= t {
      PriorRangeIsWidest(bars, p.lookback, t);
      WidestIsUnique(bars, p.lookback, t, r, PriorRange(bars, p.lookback, t));
      Mirrored(p.kLower, r);
    }
  }

  /** Every emitted row follows from its own bar, the widest move of the bars before it, and the row before it. */
  lemma EmittedRows(p: Params, bars: seq<Bar>, t: nat, r: real)
    requires p.Valid() && t < |bars| && (p.lookback <= t ==> WidestMove(bars, p.lookback, t, r))
    ensures var rows := Signals(p, bars).rows;
            RowFollows(p, bars[t], if p.lookback <= t then Some(r) else None,
                       if t == 0 then None else Some(rows[t - 1].direction), rows[t])
  {
    hide Signals, LevelsOf, WidestMove, BreaksUp, BreaksDown;
    BreakoutMachine(p, bars, t);
    BreakoutMeans(p, bars, t, r);
    RowOf(p, bars, t);
  }

  lemma Mirrored(k: real, r: real)
    ensures -k * r == -(k * r)
  {
  }

  // ---- the emitted indicators

  ghost predicate Columns(p: Params, bar: Bar, range: Option<real>, cells: Indicators) {
    match range
    case None => "dt_range" !in cells && "dt_upper_trigger" !in cells && "dt_lower_trigger" !in cells
    case Some(r) =>
      && "dt_range" in cells && cells["dt_range"] == r
      && "dt_upper_trigger" in cells && cells["dt_upper_trigger"] == bar.open + p.kUpper * r
      && "dt_lower_trigger" in cells && cells["dt_lower_trigger"] == bar.open - p.kLower * r
  }

  lemma NamesDiffer()
    ensures "dt_range" != "dt_upper_trigger" && "dt_range" != "dt_lower_trigger" && "dt_upper_trigger" != "dt_lower_trigger"
  {
    assert |"dt_range"| == 8 && |"dt_upper_trigger"| == 16;
    assert "dt_upper_trigger"[3] == 'u' && "dt_lower_trigger"[3] == 'l';
  }

  lemma CellsOf(p: Params, bars: seq<Bar>, t: nat)
    requires p.Valid() && t < |bars|
    ensures var x, cells := LevelsOf(p, bars), Signals(p, bars).indicators[t];
            && CellIs(cells, "dt_range", x.range[t]) && CellIs(cells, "dt_upper_trigger", x.upper[t])
            && CellIs(cells, "dt_lower_trigger", x.lower[t])
  {
    hide LevelsOf, ForwardFill, Rows, TwoMasks, Text, WithColumn;
    var x := LevelsOf(p, bars);
    NamesDiffer();
    var c0 := NoColumns(|x.range|);
    var c1 := WithColumn(c0, "dt_range", x.range);
    var c2 := WithColumn(c1, "dt_upper_trigger", x.upper);
    ColumnAdds(c0, "dt_range", x.range, t);
    ColumnAdds(c1, "dt_upper_trigger", x.upper, t);
    ColumnAdds(c2, "dt_lower_trigger", x.lower, t);
  }

  /** The emitted range is that widest move, and the triggers lie k ranges above and below the open. */
  lemma EmittedColumns(p: Params, bars: seq<Bar>, t: nat, r: real)
    requires p.Valid() && t < |bars| && (p.lookback <= t ==> WidestMove(bars, p.lookback, t, r))
    ensures Columns(p, bars[t], if p.lookback <= t then Some(r) else None, Signals(p, bars).indicators[t])
  {
    hide Signals, RangeOf, PriorRange, WidestMove;
    CellsOf(p, bars, t);
    RangeIsPrior(bars, p.lookback, t);
    if p.lookback <= t {
      PriorRangeIsWidest(bars, p.lookback, t);
      WidestIsUnique(bars, p.lookback, t, r, PriorRange(bars, p.lookback, t));
      Mirrored(p.kLower, r);
    }
  }
}
