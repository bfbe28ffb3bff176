/** The MACD indicator and strategy: indicators/macd.py and strategies/macd.py. */
module Macd {
  import opened Prelude
  import opened Series
  import opened MovingAverage
  import opened Simulation
  import opened SignalFrame

  datatype Params = Params(fast: nat, slow: nat, signal: nat, allowShort: bool, requireZeroLine: bool)
  {
    /** The parameter bounds, and fast < slow. */
    predicate Valid() {
      2 <= fast <= 200 && 3 <= slow <= 400 && 2 <= signal <= 100 && fast < slow
    }

    function WarmupBars(): nat {
      slow + signal
    }
  }

  function MacdLine(close: seq<real>, fast: nat, slow: nat): (r: Column)
    requires 0 < fast && 0 < slow
    ensures |r| == |close|
  {
    Difference(Ema(close, fast), Ema(close, slow))
  }

  /** The signal line: an EMA of the known MACD values only, put back on their rows. */
  function SignalLine(line: Column, signal: nat): (r: Column)
    requires 0 < signal
    ensures |r| == |line|
  {
    var (labels, values) := DropNa(line);
    Reindex(labels, Ema(values, signal), |line|)
  }

  function Histogram(p: Params, close: seq<real>): (r: Column)
    requires p.Valid()
    ensures |r| == |close|
  {
    var line := MacdLine(close, p.fast, p.slow);
    Difference(line, SignalLine(line, p.signal))
  }

  /** An upward crossover on row t, with the zero-line filter if asked for. */
  predicate CrossedUp(p: Params, line: Column, histogram: Column, t: nat)
    requires t < |line| == |histogram|
  {
    && t > 0 && histogram[t].Some? && histogram[t - 1].Some?
    && histogram[t - 1].value <= 0.0 && histogram[t].value > 0.0
    && (p.requireZeroLine ==> line[t].Some? && line[t].value > 0.0)
  }

  predicate CrossedDown(p: Params, line: Column, histogram: Column, t: nat)
    requires t < |line| == |histogram|
  {
    && t > 0 && histogram[t].Some? && histogram[t - 1].Some?
    && histogram[t - 1].value >= 0.0 && histogram[t].value < 0.0
    && (p.requireZeroLine ==> line[t].Some? && line[t].value < 0.0)
  }

  function UpMask(p: Params, line: Column, histogram: Column): (r: seq<bool>)
    requires |line| == |histogram|
    ensures |r| == |line|
  {
    seq(|line|, t requires 0 <= t < |line| => CrossedUp(p, line, histogram, t))
  }

  function DownMask(p: Params, line: Column, histogram: Column): (r: seq<bool>)
    requires |line| == |histogram|
    ensures |r| == |line|
  {
    seq(|line|, t requires 0 <= t < |line| => CrossedDown(p, line, histogram, t))
  }

  const CROSSED_UP: string := "MACD crossed above its signal line"

  function DownTarget(p: Params): SignalDirection {
    if p.allowShort then SHORT else FLAT
  }

  function DownReason(p: Params): string {
    if p.allowShort then "MACD crossed below its signal line — reversing short"
    else "MACD crossed below its signal line — exiting"
  }

  /** The signals of a MACD line and histogram. */
  function SignalsOf(p: Params, line: Column, signal: Column, histogram: Column): (r: SignalSet)
    requires |line| == |signal| == |histogram|
    ensures |r.rows| == |r.indicators| == |line|
  {
    var up, down := UpMask(p, line, histogram), DownMask(p, line, histogram);
    SignalSet(
      Rows(ForwardFill(TwoMasks(up, LONG, down, DownTarget(p)), FLAT), Text(TwoMasks(up, CROSSED_UP, down, DownReason(p)))),
      WithColumn(WithColumn(WithColumn(NoColumns(|line|), "macd", line), "macd_signal", signal), "macd_histogram", histogram))
  }

  function Signals(p: Params, close: seq<real>): (r: SignalSet)
    requires p.Valid()
    ensures |r.rows| == |r.indicators| == |close|
  {
    var line := MacdLine(close, p.fast, p.slow);
    SignalsOf(p, line, SignalLine(line, p.signal), Histogram(p, close))
  }

  /** generate_signals, with its EMA loops and its in-place masked assignments. */
  method GenerateSignals(p: Params, close: seq<real>) returns (r: Result<SignalSet>)
    requires p.Valid()
    ensures r == if |close| < p.slow + p.signal then Failure(InsufficientData) else Success(Signals(p, close))
  {
    if |close| < p.WarmupBars() {
      return Failure(InsufficientData);
    }
    var n := |close|;
    var fast := ComputeEma(close, p.fast);
    var slow := ComputeEma(close, p.slow);
    var line := Difference(fast[..], slow[..]);
    var seeded := DropNa(line);
    var signalValues := ComputeEma(seeded.1, p.signal);
    var signal := Reindex(seeded.0, signalValues[..], n);
    var histogram := Difference(line, signal);
    var up, down := UpMask(p, line, histogram), DownMask(p, line, histogram);

    var target := new Option<SignalDirection>[n](_ => None);
    assert target[..] == Blank(n);
    AssignWhere(target, up, LONG);
    AssignWhere(target, down, DownTarget(p));
    var directions := ForwardFill(target[..], FLAT);

    var reasons := new Option<string>[n](_ => None);
    assert reasons[..] == Blank(n);
    AssignWhere(reasons, up, CROSSED_UP);
    AssignWhere(reasons, down, DownReason(p));

    var indicators := WithColumn(WithColumn(WithColumn(NoColumns(n), "macd", line), "macd_signal", signal), "macd_histogram", histogram);
    r := Success(SignalSet(Rows(directions, Text(reasons[..])), indicators));
  }

  // ---- causality

  lemma MacdLinePrefix(close: seq<real>, fast: nat, slow: nat, k: nat)
    requires 0 < fast && 0 < slow && k <= |close|
    ensures MacdLine(close, fast, slow)[..k] == MacdLine(close[..k], fast, slow)
  {
    EmaPrefix(close, fast, k);
    EmaPrefix(close, slow, k);
    DifferencePrefix(Ema(close, fast), Ema(close, slow), k);
  }

  lemma SignalLinePrefix(line: Column, signal: nat, k: nat)
    requires 0 < signal && k <= |line|
    ensures SignalLine(line, signal)[..k] == SignalLine(line[..k], signal)
  {
    var (labels, values) := DropNa(line);
    var (labels', values') := DropNa(line[..k]);
    DropNaPrefix(line, k);
    EmaPrefix(values, signal, |values'|);
    forall t | 0 <= t < k
      ensures Lookup(labels, Ema(values, signal), t) == Lookup(labels', Ema(values', signal), t)
    {
      LookupPrefix(labels, Ema(values, signal), |labels'|, t);
    }
  }

  lemma MaskPrefix(p: Params, line: Column, histogram: Column, k: nat)
    requires k <= |line| == |histogram|
    ensures UpMask(p, line, histogram)[..k] == UpMask(p, line[..k], histogram[..k])
    ensures DownMask(p, line, histogram)[..k] == DownMask(p, line[..k], histogram[..k])
  {
    forall t | 0 <= t < k
      ensures CrossedUp(p, line, histogram, t) == CrossedUp(p, line[..k], histogram[..k], t)
      ensures CrossedDown(p, line, histogram, t) == CrossedDown(p, line[..k], histogram[..k], t)
    {
      assert line[..k][t] == line[t] && histogram[..k][t] == histogram[t];
      assert t > 0 ==> histogram[..k][t - 1] == histogram[t - 1];
    }
    hide CrossedUp, CrossedDown;
  }

  lemma SignalsOfPrefix(p: Params, line: Column, signal: Column, histogram: Column, k: nat)
    requires k <= |line| == |signal| == |histogram|
    ensures FirstRows(SignalsOf(p, line, signal, histogram), k) == SignalsOf(p, line[..k], signal[..k], histogram[..k])
  {
    hide UpMask, DownMask, TwoMasks, ForwardFill, Text, Rows, WithColumn, NoColumns;
    var up, down := UpMask(p, line, histogram), DownMask(p, line, histogram);
    MaskPrefix(p, line, histogram, k);
    TwoMasksPrefix(up, LONG, down, DownTarget(p), k);
    TwoMasksPrefix(up, CROSSED_UP, down, DownReason(p), k);
    var targets, texts := TwoMasks(up, LONG, down, DownTarget(p)), TwoMasks(up, CROSSED_UP, down, DownReason(p));
    ForwardFillPrefix(targets, FLAT, k);
    TextPrefix(texts, k);
    RowsPrefix(ForwardFill(targets, FLAT), Text(texts), k);
    var none := NoColumns(|line|);
    NoColumnsPrefix(|line|, k);
    var one := WithColumn(none, "macd", line);
    WithColumnPrefix(none, "macd", line, k);
    WithColumnPrefix(one, "macd_signal", signal, k);
    WithColumnPrefix(WithColumn(one, "macd_signal", signal), "macd_histogram", histogram, k);
  }

  /** The signals of a truncated series are the truncated signals of the full one. */
  lemma SignalsPrefix(p: Params, close: seq<real>, k: nat)
    requires p.Valid() && k <= |close|
    ensures Signals(p, close[..k]) == FirstRows(Signals(p, close), k)
  {
    var line := MacdLine(close, p.fast, p.slow);
    var signal := SignalLine(line, p.signal);
    MacdLinePrefix(close, p.fast, p.slow, k);
    SignalLinePrefix(line, p.signal, k);
    DifferencePrefix(line, signal, k);
    SignalsOfPrefix(p, line, signal, Difference(line, signal), k);
    hide MacdLine, SignalLine, SignalsOf, Difference;
  }

  // ---- what the crossover machine means

  /** Rows are dropped only at the front. */
  lemma {:induction false} LeadingGap(c: Column, m: nat)
    requires m <= |c|
    requires forall i :: 0 <= i < |c| ==> (c[i] == None <==> i < m)
    ensures var (labels, values) := DropNa(c);
            && |labels| == |c| - m
            && forall i :: 0 <= i < |labels| ==> labels[i] == m + i && Some(values[i]) == c[m + i]
  {
    if c != [] {
      var n := |c| - 1;
      if m <= n {
        LeadingGap(c[..n], m);
      } else {
        LeadingGap(c[..n], n);
      }
    }
  }

  lemma {:induction false} LookupConsecutive(labels: seq<nat>, c: Column, m: nat, t: nat)
    requires |labels| == |c| && forall i :: 0 <= i < |labels| ==> labels[i] == m + i
    ensures Lookup(labels, c, t) == if m <= t < m + |c| then c[t - m] else None
  {
    if labels != [] {
      var n := |labels| - 1;
      LookupConsecutive(labels[..n], c[..n], m, t);
    }
  }

  lemma {:induction false} EmaKnownFrom(values: seq<real>, span: nat, t: nat)
    requires 0 < span && t < |values|
    ensures EmaAt(values, span, t).Some? <==> span <= t + 1
  {
  }

  /** The histogram exists from row slow + signal - 2 on, which is what the warm-up counts. */
  lemma HistogramKnown(p: Params, close: seq<real>, t: nat)
    requires p.Valid() && t < |close|
    ensures Histogram(p, close)[t].Some? <==> p.slow + p.signal <= t + 2
  {
    var line := MacdLine(close, p.fast, p.slow);
    var m := if |close| < p.slow - 1 then |close| else p.slow - 1;
    forall i | 0 <= i < |close|
      ensures line[i] == None <==> i < m
    {
      EmaKnownFrom(close, p.fast, i);
      EmaKnownFrom(close, p.slow, i);
    }
    LeadingGap(line, m);
    var (labels, values) := DropNa(line);
    LookupConsecutive(labels, Ema(values, p.signal), m, t);
    if m <= t {
      EmaKnownFrom(values, p.signal, t - m);
    }
  }

  /** The last histogram value other than zero, at or before row t. */
  function LastNonzero(histogram: Column, t: nat): Option<real>
    requires t < |histogram|
  {
    if histogram[t].Some? && histogram[t].value != 0.0 then histogram[t]
    else if t == 0 then None else LastNonzero(histogram, t - 1)
  }

  /** Some crossover happened at or before row t. */
  ghost predicate HasCrossed(p: Params, line: Column, histogram: Column, t: nat)
    requires t < |line| == |histogram|
  {
    exists s: nat :: s <= t && (CrossedUp(p, line, histogram, s) || CrossedDown(p, line, histogram, s))
  }

  /** The forward-filled targets of a MACD line and histogram. */
  function Directions(p: Params, line: Column, histogram: Column): (r: seq<SignalDirection>)
    requires |line| == |histogram|
    ensures |r| == |line|
  {
    ForwardFill(TwoMasks(UpMask(p, line, histogram), LONG, DownMask(p, line, histogram), DownTarget(p)), FLAT)
  }

  lemma DirectionsAreRows(p: Params, close: seq<real>, t: nat)
    requires p.Valid() && t < |close|
    ensures Signals(p, close).rows[t].direction == Directions(p, MacdLine(close, p.fast, p.slow), Histogram(p, close))[t]
  {
    hide MacdLine, SignalLine, UpMask, DownMask, TwoMasks, ForwardFill, Text;
  }

  /** Once known, known on every later row. */
  ghost predicate NoGaps(c: Column) {
    forall i, j :: 0 <= i <= j < |c| && c[i].Some? ==> c[j].Some?
  }

  lemma HistogramHasNoGaps(p: Params, close: seq<real>)
    requires p.Valid()
    ensures NoGaps(Histogram(p, close))
  {
    var h := Histogram(p, close);
    forall i, j | 0 <= i <= j < |h| && h[i].Some?
      ensures h[j].Some?
    {
      HistogramKnown(p, close, i);
      HistogramKnown(p, close, j);
    }
    hide Histogram;
  }

  /** A downward crossover decides, else an upward one, else the previous target is held. */
  lemma CrossoverMachine(p: Params, line: Column, h: Column, t: nat)
    requires t < |line| == |h|
    ensures Directions(p, line, h)[t] ==
            if CrossedDown(p, line, h, t) then DownTarget(p)
            else if CrossedUp(p, line, h, t) then LONG
            else if t == 0 then FLAT
            else Directions(p, line, h)[t - 1]
  {
    TwoMasksStep(UpMask(p, line, h), LONG, DownMask(p, line, h), DownTarget(p), FLAT, t);
    hide TwoMasks, ForwardFill, CrossedUp, CrossedDown;
  }

  /** A crossover by row t happened by row t - 1 or on row t. */
  lemma CrossedStep(p: Params, line: Column, h: Column, t: nat)
    requires 0 < t < |line| == |h|
    ensures HasCrossed(p, line, h, t) <==>
            HasCrossed(p, line, h, t - 1) || CrossedUp(p, line, h, t) || CrossedDown(p, line, h, t)
  {
    hide CrossedUp, CrossedDown;
    if HasCrossed(p, line, h, t) && !CrossedUp(p, line, h, t) && !CrossedDown(p, line, h, t) {
      var s: nat :| s <= t && (CrossedUp(p, line, h, s) || CrossedDown(p, line, h, s));
      assert s <= t - 1;
    }
  }

  /** Without a crossover on row t the sign of the last nonzero value carries over. */
  lemma SignCarries(p: Params, line: Column, h: Column, t: nat)
    requires !p.requireZeroLine && 0 < t < |line| == |h| && h[t - 1].Some? && h[t].Some?
    requires LastNonzero(h, t - 1).Some? && !CrossedUp(p, line, h, t) && !CrossedDown(p, line, h, t)
    ensures LastNonzero(h, t).Some? && (LastNonzero(h, t).value > 0.0 <==> LastNonzero(h, t - 1).value > 0.0)
  {
  }

  /** The direction the last nonzero histogram value calls for; flat before the first crossover. */
  ghost predicate Follows(p: Params, line: Column, h: Column, t: nat, direction: SignalDirection)
    requires t < |line| == |h|
  {
    && (!HasCrossed(p, line, h, t) ==> direction == FLAT)
    && (HasCrossed(p, line, h, t) ==>
          && h[t].Some? && LastNonzero(h, t).Some?
          && direction == if LastNonzero(h, t).value > 0.0 then LONG else DownTarget(p))
  }

  lemma {:induction false} DirectionFollows(p: Params, line: Column, h: Column, t: nat)
    requires !p.requireZeroLine && t < |line| == |h| && NoGaps(h)
    ensures Follows(p, line, h, t, Directions(p, line, h)[t])
  {
    CrossoverMachine(p, line, h, t);
    hide Directions;
    if t > 0 {
      DirectionFollows(p, line, h, t - 1);
      CrossedStep(p, line, h, t);
      if HasCrossed(p, line, h, t - 1) && !CrossedUp(p, line, h, t) && !CrossedDown(p, line, h, t) {
        SignCarries(p, line, h, t);
      }
    }
  }

  /**
   * Without the zero-line filter the strategy is flat before its first crossover, and from then on
   * long exactly while the last nonzero histogram value is positive.
   */
  lemma FollowsHistogram(p: Params, close: seq<real>, t: nat)
    requires p.Valid() && !p.requireZeroLine && t < |close|
    ensures Follows(p, MacdLine(close, p.fast, p.slow), Histogram(p, close), t, Signals(p, close).rows[t].direction)
  {
    DirectionsAreRows(p, close, t);
    HistogramHasNoGaps(p, close);
    DirectionFollows(p, MacdLine(close, p.fast, p.slow), Histogram(p, close), t);
    hide MacdLine, Histogram, Signals, Directions, Follows;
  }
}
