/** Drawdown: metrics.py's one-pass running peak against the definition over all pairs of bars. */
module Drawdown {
  import opened Prelude
  import opened RealMath
  import opened Series
  import opened Statistics
  import opened Ledger
  import opened Engine
  import opened Steps
  import opened Simulation
  import opened RunLaws
  import Causality
  import LongOnly

  /** equity.cummax(), the highest equity up to and including bar t. */
  function PeakAt(e: seq<real>, t: nat): real
    requires t < |e|
  {
    if t == 0 then e[0] else Max(PeakAt(e, t - 1), e[t])
  }

  /** The fractional change from one equity to another. */
  function Change(from: real, to: real): real
    requires from != 0.0
  {
    to / from - 1.0
  }

  /** An equity curve whose first point is positive, as every run's is: its running peak is never zero. */
  predicate Starts(e: seq<real>) {
    e != [] ==> e[0] > 0.0
  }

  lemma {:induction false} PeakIsHighest(e: seq<real>, t: nat)
    requires t < |e|
    ensures forall i :: 0 <= i <= t ==> e[i] <= PeakAt(e, t)
    ensures exists i :: 0 <= i <= t && e[i] == PeakAt(e, t)
  {
    if t == 0 {
      assert e[0] == PeakAt(e, 0);
    } else {
      PeakIsHighest(e, t - 1);
      var i :| 0 <= i <= t - 1 && e[i] == PeakAt(e, t - 1);
      assert e[i] == PeakAt(e, t) || e[t] == PeakAt(e, t);
    }
  }

  /** drawdown_curve at one bar. */
  function DrawdownAt(e: seq<real>, t: nat): real
    requires Starts(e) && t < |e|
  {
    PeakIsHighest(e, t);
    Change(PeakAt(e, t), e[t])
  }

  function DrawdownCurve(e: seq<real>): (r: seq<real>)
    requires Starts(e)
    ensures |r| == |e|
  {
    seq(|e|, t requires 0 <= t < |e| => DrawdownAt(e, t))
  }

  function MaxDrawdown(e: seq<real>): real
    requires Starts(e)
  {
    match MinOf(DrawdownCurve(e))
    case None => 0.0
    case Some(m) => m
  }

  lemma DeepestBar(e: seq<real>)
    requires Starts(e) && e != []
    ensures forall t :: 0 <= t < |e| ==> MaxDrawdown(e) <= DrawdownAt(e, t)
    ensures exists t :: 0 <= t < |e| && MaxDrawdown(e) == DrawdownAt(e, t)
  {
    var d := DrawdownCurve(e);
    MinOfIsLeast(d);
    hide DrawdownAt, MinOf;
    var t :| 0 <= t < |d| && d[t] == MinOf(d).value;
    assert forall t :: 0 <= t < |e| ==> d[t] == DrawdownAt(e, t);
  }

  // ---- one pass against all pairs

  /** Falling from a higher point to the same level is a larger loss. */
  lemma HigherPeakDeeper(low: real, high: real, to: real)
    requires 0.0 < low <= high && to >= 0.0
    ensures Change(high, to) <= Change(low, to)
  {
    var q := to / low;
    DivMul(to, low);
    QuotientAtLeast(to, low, 0.0);
    MulMono(low, high, q);
    QuotientAtMost(to, high, q);
  }

  /** An account that may lose everything but never owes. */
  ghost predicate NeverOwes(e: seq<real>) {
    forall i :: 0 <= i < |e| ==> e[i] >= 0.0
  }

  /** No bar lies further below an earlier one, in proportion, than the drawdown says, and some bar lies that far. */
  lemma MaxDrawdownIsWorstPair(e: seq<real>)
    requires Starts(e) && NeverOwes(e) && e != []
    ensures forall i, j :: 0 <= i <= j < |e| && e[i] > 0.0 ==> MaxDrawdown(e) <= Change(e[i], e[j])
    ensures exists i, j :: 0 <= i <= j < |e| && e[i] > 0.0 && MaxDrawdown(e) == Change(e[i], e[j])
    ensures MaxDrawdown(e) >= -1.0
  {
    DeepestBar(e);
    hide MaxDrawdown, Change;
    forall i, j | 0 <= i <= j < |e| && e[i] > 0.0
      ensures MaxDrawdown(e) <= Change(e[i], e[j])
    {
      PeakIsHighest(e, j);
      HigherPeakDeeper(e[i], PeakAt(e, j), e[j]);
      assert MaxDrawdown(e) <= DrawdownAt(e, j);
    }
    var t :| 0 <= t < |e| && MaxDrawdown(e) == DrawdownAt(e, t);
    PeakIsHighest(e, t);
    var i :| 0 <= i <= t && e[i] == PeakAt(e, t);
    assert MaxDrawdown(e) == Change(e[i], e[t]);
    AtMostEverything(e[i], e[t]);
  }

  lemma AtMostEverything(from: real, to: real)
    requires from > 0.0 && to >= 0.0
    ensures Change(from, to) >= -1.0
  {
    QuotientAtLeast(to, from, 0.0);
  }

  /** Equity below zero breaks the definition over pairs: a curve of 2, 1, -1 fell 150%, but 200% from its low point. */
  lemma NegativeEquityDiffers(e: seq<real>)
    requires e == [2.0, 1.0, -1.0]
    ensures MaxDrawdown(e) == -1.5 && Change(e[1], e[2]) == -2.0
  {
    assert PeakAt(e, 0) == 2.0;
    assert PeakAt(e, 1) == 2.0;
    assert PeakAt(e, 2) == 2.0;
    assert DrawdownAt(e, 0) == 0.0 && DrawdownAt(e, 1) == -0.5 && DrawdownAt(e, 2) == -1.5;
    DeepestBar(e);
  }

  function Scaled(c: real, e: seq<real>): (r: seq<real>)
    ensures |r| == |e|
  {
    seq(|e|, i requires 0 <= i < |e| => Times(e[i], c))
  }

  lemma {:induction false} PeakScales(c: real, e: seq<real>, t: nat)
    requires c > 0.0 && t < |e|
    ensures PeakAt(Scaled(c, e), t) == Times(PeakAt(e, t), c)
  {
    var s := Scaled(c, e);
    hide Times, Max;
    assert s[t] == Times(e[t], c);
    if t > 0 {
      PeakScales(c, e, t - 1);
      MaxScales(PeakAt(e, t - 1), e[t], c);
    }
  }

  lemma MaxScales(x: real, y: real, c: real)
    requires c > 0.0
    ensures Max(Times(x, c), Times(y, c)) == Times(Max(x, y), c)
  {
    if x <= y {
      MulMono(x, y, c);
    } else {
      MulMono(y, x, c);
    }
  }

  lemma ChangeScales(from: real, to: real, c: real)
    requires from > 0.0 && c > 0.0
    ensures Times(from, c) > 0.0 && Change(Times(from, c), Times(to, c)) == Change(from, to)
  {
    var q := to / from;
    DivMul(to, from);
    MulMonoStrict(0.0, from, c);
    assert to * c == q * (from * c) by {
      assert to == q * from;
    }
    QuotientAtLeast(to * c, from * c, q);
    QuotientAtMost(to * c, from * c, q);
  }

  /** The drawdown does not depend on the size of the account. */
  lemma DrawdownScales(c: real, e: seq<real>)
    requires c > 0.0 && Starts(e)
    ensures Starts(Scaled(c, e)) && DrawdownCurve(Scaled(c, e)) == DrawdownCurve(e) && MaxDrawdown(Scaled(c, e)) == MaxDrawdown(e)
  {
    if e != [] {
      MulMonoStrict(0.0, e[0], c);
    }
    var s := Scaled(c, e);
    forall t | 0 <= t < |e|
      ensures DrawdownAt(s, t) == DrawdownAt(e, t)
    {
      PeakScales(c, e, t);
      PeakIsHighest(e, t);
      ChangeScales(PeakAt(e, t), e[t], c);
    }
    hide DrawdownAt, MinOf, Scaled;
    assert DrawdownCurve(s) == DrawdownCurve(e);
  }

  // ---- time under water

  /** Some earlier bar was strictly higher. */
  ghost predicate BelowAnEarlierPeak(e: seq<real>, t: nat)
    requires t < |e|
  {
    exists i :: 0 <= i < t && e[i] > e[t]
  }

  lemma UnderwaterMeans(e: seq<real>, t: nat)
    requires t < |e|
    ensures e[t] < PeakAt(e, t) <==> BelowAnEarlierPeak(e, t)
  {
    PeakIsHighest(e, t);
    var i :| 0 <= i <= t && e[i] == PeakAt(e, t);
    hide PeakAt;
  }

  /** Bars a to b - 1 all lie below an earlier peak. */
  ghost predicate Stretch(e: seq<real>, a: nat, b: nat) {
    a <= b <= |e| && forall t :: a <= t < b ==> BelowAnEarlierPeak(e, t)
  }

  function Underwater(e: seq<real>): (r: seq<bool>)
    ensures |r| == |e|
  {
    seq(|e|, t requires 0 <= t < |e| => e[t] < PeakAt(e, t))
  }

  lemma UnderwaterIsStretch(e: seq<real>)
    ensures forall t :: 0 <= t < |e| ==> (Underwater(e)[t] <==> BelowAnEarlierPeak(e, t))
  {
    forall t | 0 <= t < |e|
      ensures Underwater(e)[t] <==> BelowAnEarlierPeak(e, t)
    {
      UnderwaterMeans(e, t);
    }
  }

  /** max_drawdown_duration: the longest contiguous stretch of bars below an earlier peak. */
  method MaxDrawdownDuration(e: seq<real>) returns (longest: nat)
    ensures exists a: nat, b: nat :: Stretch(e, a, b) && b - a == longest
    ensures forall a: nat, b: nat :: Stretch(e, a, b) ==> b - a <= longest
  {
    hide BelowAnEarlierPeak, Underwater;
    longest := 0;
    if |e| == 0 {
      assert Stretch(e, 0, 0);
      return;
    }
    UnderwaterIsStretch(e);
    var underwater := Underwater(e);
    var current: nat := 0;
    ghost var start: nat := 0;
    assert Stretch(e, 0, 0);
    for t := 0 to |underwater|
      invariant current <= t && Stretch(e, t - current, t)
      invariant current < t ==> !underwater[t - current - 1]
      invariant current <= longest && Stretch(e, start, start + longest)
      invariant forall a: nat, b: nat :: b <= t && Stretch(e, a, b) ==> b - a <= longest
    {
      current := if underwater[t] then current + 1 else 0;
      if current > longest {
        start := t + 1 - current;
      }
      longest := if current > longest then current else longest;
      forall a: nat, b: nat | b <= t + 1 && Stretch(e, a, b)
        ensures b - a <= longest
      {
        if b == t + 1 && a < b {
          assert BelowAnEarlierPeak(e, t);
        }
      }
    }
  }

  // ---- the drawdown of a run

  lemma LastPoint<D>(env: Env<D>, memory: D, i: nat)
    requires env.Valid() && i < |env.bars|
    ensures var st := Reached(env, memory, i);
            && |st.equity| == i + 1
            && st.equity[i] == EquityAt(env, memory, i)
  {
    hide Settle, Equity, Entering, Exposure;
    OnePointPerBar(env, memory, i);
    RunIsSolo(env, memory, i);
    var settled := Settle(env, Entering(env, memory, i), i);
    UntouchedIsValid(settled.portfolio, env.symbol);
    TouchedEquity(settled.portfolio, env.symbol, map[env.symbol := env.bars[i].close]);
  }

  /** The curve holds the equity of every bar so far, as the portfolio stood then. */
  lemma {:induction false} PointAt<D>(env: Env<D>, memory: D, i: nat, j: nat)
    requires env.Valid() && j <= i < |env.bars|
    ensures |Reached(env, memory, i).equity| == i + 1
    ensures Reached(env, memory, i).equity[j] == EquityAt(env, memory, j)
  {
    hide Reached, EquityAt;
    if i == j {
      LastPoint(env, memory, i);
    } else {
      PointAt(env, memory, i - 1, j);
      Causality.MarksAppend(env, memory, i - 1);
    }
  }

  lemma EquityOfStart<D>(env: Env<D>, memory: D)
    requires env.Valid()
    ensures EquityAt(env, memory, 0) == env.config.initialCash
  {
    hide Reached, Equity;
    RunIsSolo(env, memory, 0);
    FirstBar(env, memory);
    SoloEquity(env.symbol, Reached(env, memory, 0).portfolio, env.bars[0].close);
  }

  /** A run's curve starts at its initial cash. */
  lemma FirstPoint<D>(env: Env<D>, memory: D)
    requires env.Valid()
    ensures Run(env, memory).equity != [] && Run(env, memory).equity[0] == env.config.initialCash
  {
    hide Reached, EquityAt, Equity, CloseOut;
    var last := |env.bars| - 1;
    PointAt(env, memory, last, 0);
    EquityOfStart(env, memory);
    if env.config.liquidateAtEnd && last == 0 {
      LiquidatedRunEndsFlat(env, memory);
      OneBarTradesNothing(env, memory);
    }
  }

  lemma OneBarTradesNothing<D>(env: Env<D>, memory: D)
    requires env.Valid() && |env.bars| == 1 && env.config.liquidateAtEnd
    ensures Run(env, memory).portfolio.cash == env.config.initialCash
  {
    hide Reached, LiquidationFill, Equity, ApplyFill;
    FirstBar(env, memory);
    OnePointPerBar(env, memory, 0);
  }

  lemma LongOnlyPoints(env: Env<Option<SignalDirection>>, strategy: Strategy, signals: SignalSet, i: nat)
    requires LongOnly.LongOnlyEnv(env, strategy, signals) && i < |env.bars|
    ensures NeverOwes(Reached(env, None, i).equity)
  {
    PointAt(env, None, i, i);
    forall j | 0 <= j <= i
      ensures Reached(env, None, i).equity[j] >= 0.0
    {
      PointAt(env, None, i, j);
      LongOnly.LongOnlySafety(env, strategy, signals, j);
    }
    hide Reached, Equity, LongOnly.LongOnlyEnv;
  }

  /** A long-only account can lose everything and no more: the drawdown of its whole run lies between -100% and 0. */
  lemma LongOnlyDrawdown(env: Env<Option<SignalDirection>>, strategy: Strategy, signals: SignalSet)
    requires LongOnly.LongOnlyEnv(env, strategy, signals)
    ensures var e := Run(env, None).equity; Starts(e) && NeverOwes(e) && -1.0 <= MaxDrawdown(e) <= 0.0
  {
    hide Reached, MaxDrawdown;
    var last := |env.bars| - 1;
    LongOnlyPoints(env, strategy, signals, last);
    FirstPoint(env, None);
    if env.config.liquidateAtEnd {
      LongOnly.LongOnlyEnd(env, strategy, signals);
      LiquidatedRunEndsFlat(env, None);
    }
    var e := Run(env, None).equity;
    assert NeverOwes(e) by {
      hide Reached, Liquidate;
    }
    hide Run;
    MaxDrawdownIsWorstPair(e);
    DrawdownMeansUnderwater(e);
  }

  /** A drawdown only deepens as the curve goes on. */
  lemma LongerIsDeeper(e: seq<real>, k: nat)
    requires Starts(e) && 0 < k <= |e|
    ensures MaxDrawdown(e) <= MaxDrawdown(e[..k])
  {
    DeepestBar(e);
    DeepestBar(e[..k]);
    hide MaxDrawdown;
    var t :| 0 <= t < |e[..k]| && MaxDrawdown(e[..k]) == DrawdownAt(e[..k], t);
    PeakOfPrefix(e, k, t);
    assert DrawdownAt(e[..k], t) == DrawdownAt(e, t);
  }

  lemma {:induction false} PeakOfPrefix(e: seq<real>, k: nat, t: nat)
    requires t < k <= |e|
    ensures PeakAt(e[..k], t) == PeakAt(e, t)
  {
    if t > 0 {
      PeakOfPrefix(e, k, t - 1);
    }
  }

  /** There is a drawdown exactly when some bar lies below an earlier one. */
  lemma DrawdownMeansUnderwater(e: seq<real>)
    requires Starts(e) && e != []
    ensures MaxDrawdown(e) <= 0.0
    ensures MaxDrawdown(e) < 0.0 <==> exists t :: 0 <= t < |e| && BelowAnEarlierPeak(e, t)
  {
    DeepestBar(e);
    forall t | 0 <= t < |e|
      ensures DrawdownAt(e, t) <= 0.0 && (DrawdownAt(e, t) < 0.0 <==> BelowAnEarlierPeak(e, t))
    {
      PeakIsHighest(e, t);
      UnderwaterMeans(e, t);
      ChangeSign(PeakAt(e, t), e[t]);
      hide BelowAnEarlierPeak, PeakAt;
    }
    hide MaxDrawdown, DrawdownAt, BelowAnEarlierPeak;
    assert DrawdownAt(e, 0) <= 0.0;
  }

  lemma ChangeSign(from: real, to: real)
    requires from > 0.0 && to <= from
    ensures Change(from, to) <= 0.0 && (Change(from, to) < 0.0 <==> to < from)
  {
    QuotientAtMost(to, from, 1.0);
    if to == from {
      QuotientAtLeast(to, from, 1.0);
    } else {
      DivMul(to, from);
      assert to / from != 1.0;
    }
  }
}
