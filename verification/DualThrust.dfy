/** The Dual Thrust breakout strategy: strategies/dual_thrust.py. */
module DualThrust {
  import opened Prelude
  import opened RealMath
  import opened Events
  import opened Series
  import opened Simulation
  import opened SignalFrame

  datatype Params = Params(lookback: nat, kUpper: real, kLower: real, allowShort: bool, intrabar: bool)
  {
    predicate Valid() {
      2 <= lookback <= 200 && 0.05 <= kUpper <= 3.0 && 0.05 <= kLower <= 3.0
    }

    function WarmupBars(): nat {
      lookback + 1
    }
  }

  function Opens(bars: seq<Bar>): (r: seq<real>)
    ensures |r| == |bars|
  {
    seq(|bars|, i requires 0 <= i < |bars| => bars[i].open)
  }

  function Highs(bars: seq<Bar>): (r: seq<real>)
    ensures |r| == |bars|
  {
    seq(|bars|, i requires 0 <= i < |bars| => bars[i].high)
  }

  function Lows(bars: seq<Bar>): (r: seq<real>)
    ensures |r| == |bars|
  {
    seq(|bars|, i requires 0 <= i < |bars| => bars[i].low)
  }

  function Closes(bars: seq<Bar>): (r: seq<real>)
    ensures |r| == |bars|
  {
    seq(|bars|, i requires 0 <= i < |bars| => bars[i].close)
  }

  /** np.maximum: missing if either side is. */
  function MaxCell(a: Option<real>, b: Option<real>): Option<real> {
    if a.Some? && b.Some? then Some(Max(a.value, b.value)) else None
  }

  function MaxColumn(a: Column, b: Column): (r: Column)
    requires |a| == |b|
    ensures |r| == |a|
  {
    seq(|a|, t requires 0 <= t < |a| => MaxCell(a[t], b[t]))
  }

  /** max(HH - LC, HC - LL) over the last `lookback` completed bars: every input is shifted by one. */
  function RangeOf(high: seq<real>, low: seq<real>, close: seq<real>, lookback: nat): (r: Column)
    requires lookback > 0 && |high| == |low| == |close|
    ensures |r| == |high|
  {
    var priorHigh, priorLow, priorClose := Shift(Known(high)), Shift(Known(low)), Shift(Known(close));
    MaxColumn(Difference(Rolling(MaxOf, priorHigh, lookback), Rolling(MinOf, priorClose, lookback)),
              Difference(Rolling(MaxOf, priorClose, lookback), Rolling(MinOf, priorLow, lookback)))
  }

  function TriggerCell(open: real, k: real, range: Option<real>): Option<real> {
    match range
    case None => None
    case Some(x) => Some(open + k * x)
  }

  function Trigger(open: seq<real>, k: real, range: Column): (r: Column)
    requires |open| == |range|
    ensures |r| == |open|
  {
    seq(|open|, t requires 0 <= t < |open| => TriggerCell(open[t], k, range[t]))
  }

  /** A level at or beyond an upper trigger, on a bar whose range has width. */
  predicate BrokeUp(level: real, trigger: Option<real>, range: Option<real>) {
    range.Some? && range.value > 0.0 && trigger.Some? && level >= trigger.value
  }

  predicate BrokeDown(level: real, trigger: Option<real>, range: Option<real>) {
    range.Some? && range.value > 0.0 && trigger.Some? && level <= trigger.value
  }

  function UpMask(level: seq<real>, trigger: Column, range: Column): (r: seq<bool>)
    requires |level| == |trigger| == |range|
    ensures |r| == |level|
  {
    seq(|level|, t requires 0 <= t < |level| => BrokeUp(level[t], trigger[t], range[t]))
  }

  function DownMask(level: seq<real>, trigger: Column, range: Column): (r: seq<bool>)
    requires |level| == |trigger| == |range|
    ensures |r| == |level|
  {
    seq(|level|, t requires 0 <= t < |level| => BrokeDown(level[t], trigger[t], range[t]))
  }

  function DownTarget(p: Params): SignalDirection {
    if p.allowShort then SHORT else FLAT
  }

  function UpReason(p: Params): string {
    if p.intrabar then "high touched the upper trigger — long breakout (intrabar)"
    else "close broke above the upper trigger — long breakout"
  }

  function DownReason(p: Params): string {
    if p.intrabar then
      if p.allowShort then "low touched the lower trigger — reversing short (intrabar)"
      else "low touched the lower trigger — exiting (intrabar)"
    else
      if p.allowShort then "close broke below the lower trigger — reversing short"
      else "close broke below the lower trigger — exiting"
  }

  datatype Levels = Levels(range: Column, upper: Column, lower: Column, up: seq<bool>, down: seq<bool>)

  /** The range, the triggers and the breakout masks. */
  function LevelsOf(p: Params, bars: seq<Bar>): (r: Levels)
    requires p.Valid()
    ensures |r.range| == |r.upper| == |r.lower| == |r.up| == |r.down| == |bars|
  {
    var range := RangeOf(Highs(bars), Lows(bars), Closes(bars), p.lookback);
    var upper, lower := Trigger(Opens(bars), p.kUpper, range), Trigger(Opens(bars), -p.kLower, range);
    Levels(range, upper, lower,
           UpMask(if p.intrabar then Highs(bars) else Closes(bars), upper, range),
           DownMask(if p.intrabar then Lows(bars) else Closes(bars), lower, range))
  }

  function SignalsOf(p: Params, x: Levels): (r: SignalSet)
    requires |x.range| == |x.upper| == |x.lower| == |x.up| == |x.down|
    ensures |r.rows| == |r.indicators| == |x.range|
  {
    SignalSet(
      Rows(ForwardFill(TwoMasks(x.up, LONG, x.down, DownTarget(p)), FLAT), Text(TwoMasks(x.up, UpReason(p), x.down, DownReason(p)))),
      WithColumn(WithColumn(WithColumn(NoColumns(|x.range|),
        "dt_range", x.range), "dt_upper_trigger", x.upper), "dt_lower_trigger", x.lower))
  }

  function Signals(p: Params, bars: seq<Bar>): (r: SignalSet)
    requires p.Valid()
    ensures |r.rows| == |r.indicators| == |bars|
  {
    SignalsOf(p, LevelsOf(p, bars))
  }

  /** generate_signals, with its in-place masked assignments. */
  method GenerateSignals(p: Params, bars: seq<Bar>) returns (r: Result<SignalSet>)
    requires p.Valid()
    ensures r == if |bars| < p.lookback + 1 then Failure(InsufficientData) else Success(Signals(p, bars))
  {
    hide LevelsOf, WithColumn, NoColumns;
    if |bars| < p.WarmupBars() {
      return Failure(InsufficientData);
    }
    var n := |bars|;
    var x := LevelsOf(p, bars);
    var target := new Option<SignalDirection>[n](_ => None);
    assert target[..] == Blank(n);
    AssignWhere(target, x.up, LONG);
    AssignWhere(target, x.down, DownTarget(p));
    var directions := ForwardFill(target[..], FLAT);

    var reasons := new Option<string>[n](_ => None);
    assert reasons[..] == Blank(n);
    AssignWhere(reasons, x.up, UpReason(p));
    AssignWhere(reasons, x.down, DownReason(p));

    var indicators := WithColumn(WithColumn(WithColumn(NoColumns(n),
      "dt_range", x.range), "dt_upper_trigger", x.upper), "dt_lower_trigger", x.lower);
    r := Success(SignalSet(Rows(directions, Text(reasons[..])), indicators));
  }

  // ---- causality

  lemma RangePrefix(high: seq<real>, low: seq<real>, close: seq<real>, lookback: nat, k: nat)
    requires lookback > 0 && k <= |high| == |low| == |close|
    ensures RangeOf(high, low, close, lookback)[..k] == RangeOf(high[..k], low[..k], close[..k], lookback)
  {
    var h, l, c := Shift(Known(high)), Shift(Known(low)), Shift(Known(close));
    KnownPrefix(high, k);
    KnownPrefix(low, k);
    KnownPrefix(close, k);
    ShiftPrefix(Known(high), k);
    ShiftPrefix(Known(low), k);
    ShiftPrefix(Known(close), k);
    RollingPrefix(MaxOf, h, lookback, k);
    RollingPrefix(MinOf, c, lookback, k);
    RollingPrefix(MaxOf, c, lookback, k);
    RollingPrefix(MinOf, l, lookback, k);
    var a, b := Difference(Rolling(MaxOf, h, lookback), Rolling(MinOf, c, lookback)),
                Difference(Rolling(MaxOf, c, lookback), Rolling(MinOf, l, lookback));
    DifferencePrefix(Rolling(MaxOf, h, lookback), Rolling(MinOf, c, lookback), k);
    DifferencePrefix(Rolling(MaxOf, c, lookback), Rolling(MinOf, l, lookback), k);
    assert MaxColumn(a, b)[..k] == MaxColumn(a[..k], b[..k]);
    hide Rolling, Shift, Known, Difference, MaxColumn;
  }

  lemma PricesPrefix(bars: seq<Bar>, k: nat)
    requires k <= |bars|
    ensures Opens(bars)[..k] == Opens(bars[..k]) && Highs(bars)[..k] == Highs(bars[..k])
    ensures Lows(bars)[..k] == Lows(bars[..k]) && Closes(bars)[..k] == Closes(bars[..k])
  {
  }

  lemma TriggerPrefix(open: seq<real>, k: real, range: Column, n: nat)
    requires n <= |open| == |range|
    ensures Trigger(open, k, range)[..n] == Trigger(open[..n], k, range[..n])
  {
    hide TriggerCell;
  }

  lemma MaskPrefix(level: seq<real>, trigger: Column, range: Column, k: nat)
    requires k <= |level| == |trigger| == |range|
    ensures UpMask(level, trigger, range)[..k] == UpMask(level[..k], trigger[..k], range[..k])
    ensures DownMask(level, trigger, range)[..k] == DownMask(level[..k], trigger[..k], range[..k])
  {
    hide BrokeUp, BrokeDown;
  }

  function First(x: Levels, k: nat): Levels
    requires k <= |x.range| == |x.upper| == |x.lower| == |x.up| == |x.down|
  {
    Levels(x.range[..k], x.upper[..k], x.lower[..k], x.up[..k], x.down[..k])
  }

  lemma LevelsPrefix(p: Params, bars: seq<Bar>, k: nat)
    requires p.Valid() && k <= |bars|
    ensures First(LevelsOf(p, bars), k) == LevelsOf(p, bars[..k])
  {
    var x := LevelsOf(p, bars);
    PricesPrefix(bars, k);
    RangePrefix(Highs(bars), Lows(bars), Closes(bars), p.lookback, k);
    TriggerPrefix(Opens(bars), p.kUpper, x.range, k);
    TriggerPrefix(Opens(bars), -p.kLower, x.range, k);
    MaskPrefix(if p.intrabar then Highs(bars) else Closes(bars), x.upper, x.range, k);
    MaskPrefix(if p.intrabar then Lows(bars) else Closes(bars), x.lower, x.range, k);
    hide RangeOf, Trigger, UpMask, DownMask, Opens, Highs, Lows, Closes;
  }

  lemma SignalsOfPrefix(p: Params, x: Levels, k: nat)
    requires k <= |x.range| == |x.upper| == |x.lower| == |x.up| == |x.down|
    ensures FirstRows(SignalsOf(p, x), k) == SignalsOf(p, First(x, k))
  {
    hide TwoMasks, ForwardFill, Text, Rows, WithColumn, NoColumns;
    TwoMasksPrefix(x.up, LONG, x.down, DownTarget(p), k);
    TwoMasksPrefix(x.up, UpReason(p), x.down, DownReason(p), k);
    var targets, texts := TwoMasks(x.up, LONG, x.down, DownTarget(p)), TwoMasks(x.up, UpReason(p), x.down, DownReason(p));
    ForwardFillPrefix(targets, FLAT, k);
    TextPrefix(texts, k);
    RowsPrefix(ForwardFill(targets, FLAT), Text(texts), k);
    var none := NoColumns(|x.range|);
    NoColumnsPrefix(|x.range|, k);
    var one := WithColumn(none, "dt_range", x.range);
    WithColumnPrefix(none, "dt_range", x.range, k);
    WithColumnPrefix(one, "dt_upper_trigger", x.upper, k);
    WithColumnPrefix(WithColumn(one, "dt_upper_trigger", x.upper), "dt_lower_trigger", x.lower, k);
  }

  /** The signals of a truncated series are the truncated signals of the full one. */
  lemma SignalsPrefix(p: Params, bars: seq<Bar>, k: nat)
    requires p.Valid() && k <= |bars|
    ensures Signals(p, bars[..k]) == FirstRows(Signals(p, bars), k)
  {
    LevelsPrefix(p, bars, k);
    SignalsOfPrefix(p, LevelsOf(p, bars), k);
    hide LevelsOf, SignalsOf;
  }

  // ---- the range is built from completed bars only

  /** The window over shifted prices at row t is bars t - lookback to t - 1. */
  lemma ShiftedWindow(values: seq<real>, window: nat, t: nat)
    requires window > 0 && t < |values|
    ensures Window(Shift(Known(values)), window, t) == if window <= t then Some(values[t - window..t]) else None
  {
    var c := Shift(Known(values));
    assert c[0] == None;
    assert forall i :: 0 < i <= t ==> c[i] == Some(values[i - 1]);
    if window <= t {
      assert Window(c, window, t).Some?;
      assert Window(c, window, t).value == values[t - window..t];
    }
  }

  /**
   * On row t the range is max(HH - LC, HC - LL) of the `lookback` bars before it, and missing until there
   * are that many: a bar's own high, low and close never enter the triggers it is judged by.
   */
  lemma RangeOfCompletedBars(high: seq<real>, low: seq<real>, close: seq<real>, lookback: nat, t: nat)
    requires lookback > 0 && t < |high| == |low| == |close|
    ensures RangeOf(high, low, close, lookback)[t] ==
            if lookback > t then None
            else
              var h, l, c := high[t - lookback..t], low[t - lookback..t], close[t - lookback..t];
              MaxCell(MinusCell(MaxOf(h), MinOf(c)), MinusCell(MaxOf(c), MinOf(l)))
  {
    ShiftedWindow(high, lookback, t);
    ShiftedWindow(low, lookback, t);
    ShiftedWindow(close, lookback, t);
    hide Window, Shift, Known, MaxCell;
  }

  /** On bars whose close lies between low and high the range is never negative. */
  lemma RangeNonNegative(high: seq<real>, low: seq<real>, close: seq<real>, lookback: nat, t: nat)
    requires 0 < lookback <= t < |high| == |low| == |close|
    requires forall i :: 0 <= i < |close| ==> low[i] <= close[i] <= high[i]
    ensures var r := RangeOf(high, low, close, lookback)[t]; r.Some? && r.value >= 0.0
  {
    RangeOfCompletedBars(high, low, close, lookback, t);
    hide RangeOf;
    var h, c := high[t - lookback..t], close[t - lookback..t];
    var l := low[t - lookback..t];
    MaxOfIsGreatest(h);
    MaxOfIsGreatest(c);
    MinOfIsLeast(c);
    MinOfIsLeast(l);
    assert h[0] == high[t - lookback] && c[0] == close[t - lookback];
    assert MinOf(c).value <= c[0] <= h[0] <= MaxOf(h).value;
  }

  // ---- the breakout machine

  /** max(HH - LC, HC - LL) over the `lookback` bars before bar t. */
  function PriorRange(bars: seq<Bar>, lookback: nat, t: nat): real
    requires 0 < lookback <= t < |bars|
  {
    var h, l, c := Highs(bars)[t - lookback..t], Lows(bars)[t - lookback..t], Closes(bars)[t - lookback..t];
    MaxOfIsGreatest(h);
    MaxOfIsGreatest(c);
    MinOfIsLeast(c);
    MinOfIsLeast(l);
    Max(MaxOf(h).value - MinOf(c).value, MaxOf(c).value - MinOf(l).value)
  }

  lemma RangeIsPrior(bars: seq<Bar>, lookback: nat, t: nat)
    requires 0 < lookback && t < |bars|
    ensures RangeOf(Highs(bars), Lows(bars), Closes(bars), lookback)[t] ==
            if lookback <= t then Some(PriorRange(bars, lookback, t)) else None
  {
    hide RangeOf, MaxOf, MinOf, Highs, Lows, Closes;
    RangeOfCompletedBars(Highs(bars), Lows(bars), Closes(bars), lookback, t);
    if lookback <= t {
      MaxOfIsGreatest(Highs(bars)[t - lookback..t]);
      MaxOfIsGreatest(Closes(bars)[t - lookback..t]);
      MinOfIsLeast(Closes(bars)[t - lookback..t]);
      MinOfIsLeast(Lows(bars)[t - lookback..t]);
    }
  }

  /** The level a breakout is judged by. */
  function Level(p: Params, bar: Bar, up: bool): real {
    if !p.intrabar then bar.close else if up then bar.high else bar.low
  }

  lemma BrokeMeans(level: real, open: real, k: real, r: real)
    ensures BrokeUp(level, TriggerCell(open, k, Some(r)), Some(r)) <==> r > 0.0 && level >= open + k * r
    ensures BrokeDown(level, TriggerCell(open, k, Some(r)), Some(r)) <==> r > 0.0 && level <= open + k * r
  {
  }

  /**
   * What a breakout is: from row `lookback` on, a level at or beyond open + k_upper * range, or open - k_lower *
   * range, of the bars before it, when that range has width.
   */
  lemma BreakoutLevels(p: Params, bars: seq<Bar>, t: nat)
    requires p.Valid() && t < |bars|
    ensures t < p.lookback ==> !LevelsOf(p, bars).up[t] && !LevelsOf(p, bars).down[t]
    ensures t >= p.lookback ==>
              var x, open, r := LevelsOf(p, bars), bars[t].open, PriorRange(bars, p.lookback, t);
              && (x.up[t] <==> r > 0.0 && Level(p, bars[t], true) >= open + p.kUpper * r)
              && (x.down[t] <==> r > 0.0 && Level(p, bars[t], false) <= open + (-p.kLower) * r)
  {
    hide RangeOf, PriorRange, TriggerCell;
    RangeIsPrior(bars, p.lookback, t);
    if t >= p.lookback {
      var r := PriorRange(bars, p.lookback, t);
      BrokeMeans(Level(p, bars[t], true), bars[t].open, p.kUpper, r);
      BrokeMeans(Level(p, bars[t], false), bars[t].open, -p.kLower, r);
    }
  }

  lemma OppositeTriggers(open: real, a: real, b: real, r: real)
    requires a > 0.0 && b > 0.0 && r > 0.0
    ensures TriggerCell(open, -b, Some(r)).value < TriggerCell(open, a, Some(r)).value
  {
    MulMonoStrict(-b, a, r);
  }

  /** Judged from closes, a bar never breaks out both ways. */
  lemma CloseBreaksOneWay(p: Params, bars: seq<Bar>, t: nat)
    requires p.Valid() && !p.intrabar && t < |bars|
    ensures !(LevelsOf(p, bars).up[t] && LevelsOf(p, bars).down[t])
  {
    var x := LevelsOf(p, bars);
    hide RangeOf;
    if x.range[t].Some? && x.range[t].value > 0.0 {
      OppositeTriggers(bars[t].open, p.kUpper, p.kLower, x.range[t].value);
      hide TriggerCell;
      assert x.upper[t] == TriggerCell(bars[t].open, p.kUpper, x.range[t]);
      assert x.lower[t] == TriggerCell(bars[t].open, -p.kLower, x.range[t]);
    }
  }

  /** A downside break decides, else an upside break, else the previous target is held; ties go down. */
  lemma BreakoutMachine(p: Params, bars: seq<Bar>, t: nat)
    requires p.Valid() && t < |bars|
    ensures var x, rows := LevelsOf(p, bars), Signals(p, bars).rows;
            rows[t].direction ==
            if x.down[t] then DownTarget(p)
            else if x.up[t] then LONG
            else if t == 0 then FLAT
            else rows[t - 1].direction
  {
    hide LevelsOf, TwoMasks, ForwardFill, Text;
    var x := LevelsOf(p, bars);
    TwoMasksStep(x.up, LONG, x.down, DownTarget(p), FLAT, t);
  }
}
