/** Whole runs of the bar loop: the queue discipline, the close-out and the conserved totals. */
module RunLaws {
  import opened Prelude
  import opened RealMath
  import opened Events
  import opened Ledger
  import opened FillLaws
  import opened Conservation
  import opened Engine
  import opened Steps

  function Skips(warnings: seq<Warning>): nat {
    if warnings == [] then 0
    else Skips(warnings[..|warnings| - 1]) + if warnings[|warnings| - 1].SkippedBuy? then 1 else 0
  }

  /** Fill f is how the order decided at bar j came out on bar j + 1, at that bar's price. */
  ghost predicate FilledAfter<D>(env: Env<D>, memory: D, j: nat, f: FillEvent)
    requires env.Valid()
  {
    && j + 1 < |env.bars|
    && OrderAt(env, memory, j).Some?
    && ExecutionAt(env, memory, j).Executed?
    && ExecutionAt(env, memory, j).fill == f
    && f.timestamp == env.index[j + 1]
    && f.side == OrderAt(env, memory, j).value.side
    && f.referencePrice == env.config.executionModel.PriceOf(env.Market(j + 1))
    && f.fillPrice == env.config.costs.FillPrice(f.referencePrice, f.side)
    && f.commission == env.config.costs.Commission(Notional(f.quantity, f.fillPrice))
  }

  ghost predicate OrderedAt<D>(env: Env<D>, memory: D, j: nat, o: Order)
    requires env.Valid()
  {
    j + 1 < |env.bars| && OrderAt(env, memory, j) == Some(o)
  }

  lemma SkipsAppend(ws: seq<Warning>, w: Warning)
    ensures Skips(ws + [w]) == Skips(ws) + if w.SkippedBuy? then 1 else 0
  {
    assert (ws + [w])[..|ws|] == ws;
  }

  ghost predicate FillTraced<D>(env: Env<D>, memory: D, i: nat, f: FillEvent)
    requires env.Valid()
  {
    exists j: nat :: j < i && FilledAfter(env, memory, j, f)
  }

  ghost predicate OrderTraced<D>(env: Env<D>, memory: D, i: nat, o: Order)
    requires env.Valid()
  {
    exists j: nat :: j < i && OrderedAt(env, memory, j, o)
  }

  /** Every recorded fill and order comes from some bar before i. */
  ghost predicate Traced<D>(env: Env<D>, memory: D, i: nat, st: RunState<D>)
    requires env.Valid()
  {
    && (forall f :: f in st.fills ==> FillTraced(env, memory, i, f))
    && (forall o :: o in st.orders ==> OrderTraced(env, memory, i, o))
  }

  /** Every order so far was filled or skipped, and no error was raised. */
  ghost predicate Resolved<D>(st: RunState<D>) {
    !st.raised && st.pending == None && |st.orders| == |st.fills| + Skips(st.warnings)
  }

  lemma OneOutcome<D>(st: RunState<D>, st': RunState<D>, order: Order, e: Execution)
    requires Resolved(st) && !st'.raised && st'.pending == None && st'.orders == st.orders + [order]
    requires match e
             case WrongBar => false
             case Skipped(w) => w.SkippedBuy? && st'.fills == st.fills && st'.warnings == st.warnings + [w]
             case Executed(f, ws) =>
               && st'.fills == st.fills + [f] && st'.warnings == st.warnings + ws
               && (ws == [] || (|ws| == 1 && ws[0].ReducedBuy?))
    ensures Resolved(st')
  {
    match e
    case Skipped(w) =>
      SkipsAppend(st.warnings, w);
    case Executed(f, ws) =>
      if ws == [] {
        assert st.warnings + ws == st.warnings;
      } else {
        assert ws == [ws[0]];
        SkipsAppend(st.warnings, ws[0]);
      }
  }

  lemma TraceGrows<D>(env: Env<D>, memory: D, i: nat, st: RunState<D>, st': RunState<D>)
    requires env.Valid() && Traced(env, memory, i, st)
    requires st'.fills == st.fills || exists f :: st'.fills == st.fills + [f] && FilledAfter(env, memory, i, f)
    requires st'.orders == st.orders || exists o :: st'.orders == st.orders + [o] && OrderedAt(env, memory, i, o)
    ensures Traced(env, memory, i + 1, st')
  {
    hide FilledAfter, OrderedAt;
    forall f | f in st'.fills
      ensures FillTraced(env, memory, i + 1, f)
    {
      if f in st.fills {
        assert FillTraced(env, memory, i, f);
      } else {
        assert FilledAfter(env, memory, i, f);
      }
    }
    forall o | o in st'.orders
      ensures OrderTraced(env, memory, i + 1, o)
    {
      if o in st.orders {
        assert OrderTraced(env, memory, i, o);
      } else {
        assert OrderedAt(env, memory, i, o);
      }
    }
  }

  lemma SameRecords<D>(st: RunState<D>, st': RunState<D>)
    requires Resolved(st) && !st'.raised && st'.pending == None
    requires st'.orders == st.orders && st'.fills == st.fills && st'.warnings == st.warnings
    ensures Resolved(st')
  {
  }

  /**
   * Queue discipline. Every order is resolved on the bar after its decision, as one fill at that bar's
   * price or as one skipped warning; nothing else fills; the wrong-bar error is never raised.
   */
  lemma {:induction false} QueueDiscipline<D>(env: Env<D>, memory: D, i: nat)
    requires env.Valid() && i < |env.bars|
    ensures Resolved(Reached(env, memory, i)) && Traced(env, memory, i, Reached(env, memory, i))
  {
    hide Reached, Resolved, Traced;
    if i == 0 {
      FirstQueue(env, memory);
    } else {
      QueueDiscipline(env, memory, i - 1);
      StepResolved(env, memory, i - 1);
      StepTraced(env, memory, i - 1);
    }
  }

  lemma FirstQueue<D>(env: Env<D>, memory: D)
    requires env.Valid()
    ensures Resolved(Reached(env, memory, 0)) && Traced(env, memory, 0, Reached(env, memory, 0))
  {
    hide Reached;
    EngineLoop.PendingIsForThisBar(env, memory, 0);
    FirstBar(env, memory);
  }

  lemma StepResolved<D>(env: Env<D>, memory: D, j: nat)
    requires env.Valid() && j + 1 < |env.bars| && Resolved(Reached(env, memory, j))
    ensures Resolved(Reached(env, memory, j + 1))
  {
    hide Reached, Execute, OrderAt, ApplyFill, Solo, Resolved;
    EngineLoop.PendingIsForThisBar(env, memory, j + 1);
    RunIsSolo(env, memory, j);
    NextBar(env, memory, j);
    var st, st' := Reached(env, memory, j), Reached(env, memory, j + 1);
    var order := OrderAt(env, memory, j);
    if order == None {
      SameRecords(st, st');
    } else {
      ExecuteFacts(order.value, env.Market(j + 1), env.config, CashAt(env, memory, j));
      OneOutcome(st, st', order.value, ExecutionAt(env, memory, j));
    }
  }

  lemma StepTraced<D>(env: Env<D>, memory: D, j: nat)
    requires env.Valid() && j + 1 < |env.bars| && Traced(env, memory, j, Reached(env, memory, j))
    ensures Traced(env, memory, j + 1, Reached(env, memory, j + 1))
  {
    hide Reached, Execute, OrderAt, ApplyFill, Solo, Traced, CostModel.FillPrice, CostModel.Commission, Notional;
    RunIsSolo(env, memory, j);
    NextBar(env, memory, j);
    OrderFacts(env, memory, j);
    var order := OrderAt(env, memory, j);
    if order.Some? {
      ExecuteFacts(order.value, env.Market(j + 1), env.config, CashAt(env, memory, j));
      assert OrderedAt(env, memory, j, order.value);
      var e := ExecutionAt(env, memory, j);
      if e.Executed? {
        assert FilledAfter(env, memory, j, e.fill);
      }
    }
    hide FilledAfter, OrderedAt;
    TraceGrows(env, memory, j, Reached(env, memory, j), Reached(env, memory, j + 1));
  }

  /** Closing exactly what is held leaves exactly nothing. */
  lemma ExactCloseIsFlat(p: Position, fill: FillEvent, bar: int)
    requires !p.IsFlat() && fill.quantity == Abs(p.quantity)
    requires fill.side == if p.quantity > 0.0 then Sell else Buy
    ensures Residue(p, fill) == 0.0 && Filled(p, fill, bar).position.quantity == 0.0
  {
    RemainingBySide(p, fill);
    QuantityMoves(p, fill, bar);
    SignedSize(fill);
    hide Filled;
  }

  /** The run `run` is `end`, closed out: flat, its last equity point its cash, everything earlier untouched. */
  ghost predicate ClosedOut<D>(env: Env<D>, end: RunState<D>, run: RunState<D>)
    requires env.Valid()
  {
    var n := |env.bars|;
    var p := end.portfolio.PositionOf(env.symbol);
    && Solo(env.symbol, run.portfolio)
    && run.portfolio.PositionOf(env.symbol).IsFlat()
    && |end.equity| == |end.exposure| == n
    && run.equity == end.equity[..n - 1] + [run.portfolio.cash]
    && run.exposure == end.exposure[..n - 1] + [0.0]
    && run.orders == end.orders && run.warnings == end.warnings && run.positions == end.positions
    && run.fills == end.fills + (if p.IsFlat() then [] else [LiquidationFill(env, p)])
  }

  /** With liquidation on, a run ends flat and its last equity point is its cash. */
  lemma LiquidatedRunEndsFlat<D>(env: Env<D>, memory: D)
    requires env.Valid() && env.config.liquidateAtEnd
    ensures ClosedOut(env, Reached(env, memory, |env.bars| - 1), Run(env, memory))
  {
    hide Reached, Liquidate, ClosedOut;
    OnePointPerBar(env, memory, |env.bars| - 1);
    RunIsSolo(env, memory, |env.bars| - 1);
    LiquidateClosesOut(env, Reached(env, memory, |env.bars| - 1));
  }

  lemma LiquidateClosesOut<D>(env: Env<D>, end: RunState<D>)
    requires env.Valid() && Solo(env.symbol, end.portfolio)
    requires |end.equity| == |end.exposure| == |env.bars|
    ensures ClosedOut(env, end, Liquidate(env, end))
  {
    hide CloseOut, Equity, LiquidationFill;
    var n := |env.bars|;
    CloseOutIsFlat(env, end);
    var closed := CloseOut(env, end);
    SoloEquity(env.symbol, closed.portfolio, env.bars[n - 1].close);
    assert closed.fills == end.fills + [] || !end.portfolio.PositionOf(env.symbol).IsFlat();
  }

  lemma CloseOutIsFlat<D>(env: Env<D>, st: RunState<D>)
    requires env.Valid() && Solo(env.symbol, st.portfolio)
    ensures var closed, p := CloseOut(env, st), st.portfolio.PositionOf(env.symbol);
            && Solo(env.symbol, closed.portfolio)
            && closed.portfolio.PositionOf(env.symbol).IsFlat()
            && closed.(portfolio := st.portfolio, fills := st.fills) == st
            && (p.IsFlat() ==> closed == st)
            && (!p.IsFlat() ==>
                  closed.fills == st.fills + [LiquidationFill(env, p)] &&
                  closed.portfolio == ApplyFill(st.portfolio, LiquidationFill(env, p), |env.bars| - 1))
  {
    var p := st.portfolio.PositionOf(env.symbol);
    if !p.IsFlat() {
      var fill := LiquidationFill(env, p);
      ExactCloseIsFlat(p, fill, |env.bars| - 1);
      FillKeepsSolo(env.symbol, st.portfolio, fill, |env.bars| - 1);
    }
    hide ApplyFill, LiquidationFill;
  }

  /** The fills of a run are a history in the sense of module Conservation: its portfolio is their fold. */
  lemma {:induction false} RunIsFold<D>(env: Env<D>, memory: D, i: nat) returns (bars: seq<int>)
    requires env.Valid() && i < |env.bars|
    ensures var st := Reached(env, memory, i);
            && |bars| == |st.fills| && PositiveFills(st.fills)
            && st.portfolio == ApplyFills(NewPortfolio(env.config.initialCash), st.fills, bars).Touched(env.symbol)
  {
    hide ApplyFill, Execute, Solo, OrderAt, Reached;
    if i == 0 {
      FirstBarPortfolio(env, memory);
      FirstBar(env, memory);
      bars := [];
    } else {
      var before := RunIsFold(env, memory, i - 1);
      RunIsSolo(env, memory, i - 1);
      NextBar(env, memory, i - 1);
      var st := Reached(env, memory, i - 1);
      if OrderAt(env, memory, i - 1).Some? && ExecutionAt(env, memory, i - 1).Executed? {
        var f := ExecutionAt(env, memory, i - 1).fill;
        bars := before + [i];
        var fills := st.fills + [f];
        assert fills[..|st.fills|] == st.fills && bars[..|st.fills|] == before;
        TouchCommutes(ApplyFills(NewPortfolio(env.config.initialCash), st.fills, before), f, i);
      } else {
        bars := before;
      }
    }
  }

  lemma FirstBarPortfolio<D>(env: Env<D>, memory: D)
    requires env.Valid()
    ensures Reached(env, memory, 0).portfolio == NewPortfolio(env.config.initialCash).Touched(env.symbol)
  {
    hide Equity;
  }

  lemma TouchCommutes(l: Portfolio, fill: FillEvent, bar: int)
    requires fill.quantity > 0.0
    ensures ApplyFill(l.Touched(fill.symbol), fill, bar) == ApplyFill(l, fill, bar)
    ensures ApplyFill(l, fill, bar).Touched(fill.symbol) == ApplyFill(l, fill, bar)
  {
    hide Filled;
  }

  /** Every run balances: the ledger identity at every bar, for any decider, costs and bars. */
  lemma RunConserves<D>(env: Env<D>, memory: D, i: nat) returns (bars: seq<int>)
    requires env.Valid() && i < |env.bars|
    ensures var st, l0 := Reached(env, memory, i), NewPortfolio(env.config.initialCash);
            && |bars| == |st.fills| && PositiveFills(st.fills)
            && Balanced(env.config.initialCash, st.portfolio,
                        BookResidue(l0, st.fills, bars), CostResidues(l0, st.fills, bars))
            && Abs(BookResidue(l0, st.fills, bars)) <= SnapBounds(l0, st.fills, bars)
  {
    hide Reached, ApplyFills, Balanced, BookResidue, CostResidues, SnapBounds;
    bars := RunIsFold(env, memory, i);
    var st, l0 := Reached(env, memory, i), NewPortfolio(env.config.initialCash);
    LedgerIdentity(env.config.initialCash, st.fills, bars);
    ResidueIsTiny(l0, st.fills, bars);
    TouchedBalance(env.config.initialCash, ApplyFills(l0, st.fills, bars), env.symbol,
                   BookResidue(l0, st.fills, bars), CostResidues(l0, st.fills, bars));
  }

  /** The same of a whole run, its close-out included. */
  lemma WholeRunIsFold<D>(env: Env<D>, memory: D) returns (bars: seq<int>)
    requires env.Valid()
    ensures var run := Run(env, memory);
            && |bars| == |run.fills| && PositiveFills(run.fills)
            && run.portfolio == ApplyFills(NewPortfolio(env.config.initialCash), run.fills, bars).Touched(env.symbol)
  {
    hide Reached, ApplyFill, LiquidationFill, CloseOut, Equity;
    var last := |env.bars| - 1;
    OnePointPerBar(env, memory, last);
    RunIsSolo(env, memory, last);
    bars := RunIsFold(env, memory, last);
    var st := Reached(env, memory, last);
    var p := st.portfolio.PositionOf(env.symbol);
    if env.config.liquidateAtEnd {
      CloseOutIsFlat(env, st);
      if !p.IsFlat() {
        var f := LiquidationFill(env, p);
        LiquidationFacts(env, p);
        var l := ApplyFills(NewPortfolio(env.config.initialCash), st.fills, bars);
        var fills, bars' := st.fills + [f], bars + [last];
        assert fills[..|st.fills|] == st.fills && bars'[..|bars|] == bars;
        TouchCommutes(l, f, last);
        bars := bars';
      }
    }
  }

  lemma LiquidationFacts<D>(env: Env<D>, p: Position)
    requires env.Valid() && !p.IsFlat()
    ensures LiquidationFill(env, p).quantity == Abs(p.quantity) > 0.0 && LiquidationFill(env, p).symbol == env.symbol
  {
  }

  /** Every whole run balances, for any decider, costs and bars, with or without a close-out. */
  lemma WholeRunConserves<D>(env: Env<D>, memory: D) returns (bars: seq<int>)
    requires env.Valid()
    ensures var run, l0 := Run(env, memory), NewPortfolio(env.config.initialCash);
            && |bars| == |run.fills| && PositiveFills(run.fills)
            && Balanced(env.config.initialCash, run.portfolio,
                        BookResidue(l0, run.fills, bars), CostResidues(l0, run.fills, bars))
            && Abs(BookResidue(l0, run.fills, bars)) <= SnapBounds(l0, run.fills, bars)
  {
    hide Run, ApplyFills, Balanced, BookResidue, CostResidues, SnapBounds;
    bars := WholeRunIsFold(env, memory);
    var run, l0 := Run(env, memory), NewPortfolio(env.config.initialCash);
    LedgerIdentity(env.config.initialCash, run.fills, bars);
    ResidueIsTiny(l0, run.fills, bars);
    TouchedBalance(env.config.initialCash, ApplyFills(l0, run.fills, bars), env.symbol,
                   BookResidue(l0, run.fills, bars), CostResidues(l0, run.fills, bars));
  }

  /** A run that trades whole units and is closed out gained its gross results less commission, and its realized PnL plus slippage. */
  lemma LiquidatedGain<D>(env: Env<D>, memory: D)
    requires env.Valid() && env.config.liquidateAtEnd
    requires forall f :: f in Run(env, memory).fills ==> Whole(f.quantity)
    ensures AllTidy(Run(env, memory).portfolio)
    ensures var l := Run(env, memory).portfolio;
            && l.cash - env.config.initialCash == SumTrades(GrossPnl, l.trades) - l.totalCommission
            && l.cash - env.config.initialCash == RealizedTotal(l) + l.totalSlippage
            && SumTrades(Costs, l.trades) == l.totalCommission + l.totalSlippage
  {
    hide Run, Reached, ApplyFills, Whole, LiquidationFill, RealizedTotal, SumTrades, BookTotal, OpenCostTotal,
      Solo, AllTidy, Portfolio.Touched;
    var bars := WholeRunIsFold(env, memory);
    LiquidatedRunEndsFlat(env, memory);
    var run := Run(env, memory);
    var l := ApplyFills(NewPortfolio(env.config.initialCash), run.fills, bars);
    assert forall i :: 0 <= i < |run.fills| ==> run.fills[i] in run.fills;
    FlatBeneath(l, env.symbol);
    FlatCashGain(env.config.initialCash, run.fills, bars);
    TouchedFields(l, env.symbol);
    TouchedTotals(l, env.symbol);
  }

  lemma FlatBeneath(l: Portfolio, symbol: string)
    requires Solo(symbol, l.Touched(symbol)) && l.Touched(symbol).PositionOf(symbol).IsFlat()
    ensures forall s :: s in l.positions ==> l.positions[s].IsFlat()
  {
    hide AllTidy;
    forall s | s in l.positions ensures l.positions[s].IsFlat() {
      assert s in l.Touched(symbol).positions;
    }
  }

  // ---- orders and their outcomes, one to one

  /** Bar j placed an order for bar j + 1. */
  ghost predicate Places<D>(env: Env<D>, memory: D, j: nat)
    requires env.Valid()
  {
    j + 1 < |env.bars| && OrderAt(env, memory, j).Some?
  }

  /** These bars before bar i placed an order, and stand in order. */
  ghost predicate Placing<D>(env: Env<D>, memory: D, i: nat, bars: seq<nat>)
    requires env.Valid()
  {
    && (forall k :: 0 <= k < |bars| ==> bars[k] < i && Places(env, memory, bars[k]))
    && (forall j, k :: 0 <= j < k < |bars| ==> bars[j] < bars[k])
  }

  /** The bars before bar i that placed an order, in order. */
  ghost function OrderBars<D>(env: Env<D>, memory: D, i: nat): (r: seq<nat>)
    requires env.Valid()
    ensures Placing(env, memory, i, r)
  {
    hide Places;
    if i == 0 then []
    else
      var before := OrderBars(env, memory, i - 1);
      if Places(env, memory, i - 1) then before + [i - 1] else before
  }

  /** They are all of those bars. */
  lemma {:induction false} NoOrderIsMissed<D>(env: Env<D>, memory: D, i: nat, j: nat)
    requires env.Valid() && j < i && Places(env, memory, j)
    ensures j in OrderBars(env, memory, i)
  {
    hide Places, Placing;
    if j < i - 1 {
      NoOrderIsMissed(env, memory, i - 1, j);
    }
  }

  /** The outcomes of the orders of these bars, one each. */
  ghost function Outcomes<D>(env: Env<D>, memory: D, bars: seq<nat>): (r: seq<Execution>)
    requires env.Valid()
    requires forall k :: 0 <= k < |bars| ==> Places(env, memory, bars[k])
    ensures |r| == |bars|
  {
    seq(|bars|, k requires 0 <= k < |bars| && Places(env, memory, bars[k]) => ExecutionAt(env, memory, bars[k]))
  }

  /** The fills among some outcomes, and what they warned of. */
  function FillsOf(outcomes: seq<Execution>): seq<FillEvent> {
    if outcomes == [] then []
    else
      var n := |outcomes| - 1;
      FillsOf(outcomes[..n]) + if outcomes[n].Executed? then [outcomes[n].fill] else []
  }

  function WarningsOf(outcomes: seq<Execution>): seq<Warning> {
    if outcomes == [] then []
    else
      var n := |outcomes| - 1;
      WarningsOf(outcomes[..n]) +
      match outcomes[n] case WrongBar => [] case Skipped(w) => [w] case Executed(_, ws) => ws
  }

  lemma OutcomesOfNone()
    ensures FillsOf([]) == [] && WarningsOf([]) == []
  {
  }

  lemma OutcomesAppend(outcomes: seq<Execution>, e: Execution)
    ensures FillsOf(outcomes + [e]) == FillsOf(outcomes) + if e.Executed? then [e.fill] else []
    ensures WarningsOf(outcomes + [e]) ==
            WarningsOf(outcomes) + match e case WrongBar => [] case Skipped(w) => [w] case Executed(_, ws) => ws
  {
    assert (outcomes + [e])[..|outcomes|] == outcomes;
  }

  /** The recorded orders, fills and warnings are those of the placing bars and their outcomes, one outcome an order. */
  ghost predicate OneToOne<D>(env: Env<D>, memory: D, i: nat, st: RunState<D>)
    requires env.Valid() && i < |env.bars|
  {
    var bars := OrderBars(env, memory, i);
    var outcomes := Outcomes(env, memory, bars);
    && |st.orders| == |bars|
    && (forall k :: 0 <= k < |bars| ==> OrderAt(env, memory, bars[k]) == Some(st.orders[k]))
    && (forall k :: 0 <= k < |outcomes| ==> outcomes[k] != WrongBar)
    && st.fills == FillsOf(outcomes) && st.warnings == WarningsOf(outcomes)
  }

  /**
   * Orders and outcomes correspond one to one: order k was placed on bar b[k], the b[k] increase, its outcome is
   * its execution on bar b[k] + 1, a fill or a skip, and the fills and warnings of a run are those outcomes in order.
   */
  lemma {:induction false} OrdersMeetOutcomes<D>(env: Env<D>, memory: D, i: nat)
    requires env.Valid() && i < |env.bars|
    ensures OneToOne(env, memory, i, Reached(env, memory, i))
  {
    hide Reached, OrderAt, ExecutionAt, ApplyFill, Solo, FillsOf, WarningsOf;
    if i == 0 {
      FirstBar(env, memory);
      OutcomesOfNone();
    } else {
      OrdersMeetOutcomes(env, memory, i - 1);
      RunIsSolo(env, memory, i - 1);
      NextBar(env, memory, i - 1);
      if OrderAt(env, memory, i - 1).Some? {
        var before, bars, st := OrderBars(env, memory, i - 1), OrderBars(env, memory, i), Reached(env, memory, i);
        var e := ExecutionAt(env, memory, i - 1);
        assert bars == before + [i - 1];
        assert Outcomes(env, memory, bars) == Outcomes(env, memory, before) + [e];
        OutcomesAppend(Outcomes(env, memory, before), e);
        assert st.fills == FillsOf(Outcomes(env, memory, bars));
        assert st.warnings == WarningsOf(Outcomes(env, memory, bars));
        assert forall k :: 0 <= k < |bars| ==> OrderAt(env, memory, bars[k]) == Some(st.orders[k]);
        assert forall k :: 0 <= k < |bars| ==> Outcomes(env, memory, bars)[k] != WrongBar;
      }
    }
  }
}
