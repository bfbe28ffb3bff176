/** engine.py as it is written: the bar loop over objects, proved against module Engine. */
module EngineLoop {
  import opened Prelude
  import opened Events
  import opened Engine
  import opened Ledger
  import PyPortfolio

  class SimulationOutput {
    const symbol: string
    var equityCurve: seq<real>
    var exposure: seq<real>
    var positions: seq<PositionEvent>
    var orders: seq<Order>
    var fills: seq<FillEvent>
    var warnings: seq<Warning>

    constructor (symbol: string)
      ensures this.symbol == symbol && Blank()
    {
      this.symbol := symbol;
      equityCurve, exposure, positions, orders, fills, warnings := [], [], [], [], [], [];
    }

    ghost predicate Blank()
      reads this
    {
      equityCurve == [] && exposure == [] && positions == [] && orders == [] && fills == [] && warnings == []
    }

    /** The lists appended to inside the loop are those of a run state. */
    ghost predicate Records<D>(st: RunState<D>)
      reads this`positions, this`orders, this`fills, this`warnings
    {
      positions == st.positions && orders == st.orders && fills == st.fills && warnings == st.warnings
    }
  }

  /** _execute: the warnings it appends and the fill it returns, for an order whose bar has come. */
  method ExecuteOrder(order: Order, market: MarketEvent, portfolio: PyPortfolio.Portfolio,
                      config: Config, output: SimulationOutput)
    returns (fill: Option<FillEvent>)
    requires order.timestamp == market.timestamp
    modifies output`warnings
    ensures match Execute(order, market, config, portfolio.cash)
            case WrongBar => false
            case Skipped(w) => fill == None && output.warnings == old(output.warnings) + [w]
            case Executed(f, ws) => fill == Some(f) && output.warnings == old(output.warnings) + ws
  {
    hide CanAfford, MaxAffordable, Notional, CostModel.FillPrice, CostModel.Commission;
    var reference := config.executionModel.PriceOf(market);
    var price := config.costs.FillPrice(reference, order.side);
    var quantity := order.quantity;
    if portfolio.CanAfford(order.side, quantity, price, config.costs.Commission(Notional(quantity, price))) {
      assert output.warnings == old(output.warnings) + [];
    } else {
      var affordable := portfolio.MaxAffordable(price, config.costs.Rate());
      if affordable <= 0.0 {
        output.warnings := output.warnings + [SkippedBuy(market.timestamp, order.symbol, quantity, price)];
        return None;
      }
      output.warnings := output.warnings + [ReducedBuy(market.timestamp, order.symbol, quantity, affordable)];
      quantity := affordable;
    }
    fill := Some(FillOf(order, market, reference, price, quantity, config.costs));
  }

  /** A pending order is always scheduled for the bar about to be processed. */
  lemma {:induction false} PendingIsForThisBar<D>(env: Env<D>, memory: D, i: nat)
    requires env.Valid() && i < |env.bars|
    ensures var p := Entering(env, memory, i).pending; p.Some? ==> p.value.timestamp == env.index[i]
    ensures !Entering(env, memory, i).raised && !Reached(env, memory, i).raised
    ensures Reached(env, memory, i).pending == None
  {
    hide Execute, ApplyFill, Equity, Exposure;
    if i > 0 {
      PendingIsForThisBar(env, memory, i - 1);
    }
    ScheduledExecutes(env, Entering(env, memory, i), i);
  }

  lemma ScheduledExecutes<D>(env: Env<D>, st: RunState<D>, i: nat)
    requires env.Valid() && i < |env.bars|
    requires st.pending.Some? ==> st.pending.value.timestamp == env.index[i]
    ensures Settle(env, st, i).raised == st.raised && Settle(env, st, i).pending == None
  {
    hide ApplyFill, CanAfford, MaxAffordable, FillOf;
  }

  /** The lists and the portfolio hold what the run state st holds. */
  ghost predicate Holds<D>(portfolio: PyPortfolio.Portfolio, output: SimulationOutput, st: RunState<D>)
    reads portfolio, portfolio.positions.Values, output`positions, output`orders, output`fills, output`warnings
  {
    portfolio.Valid() && portfolio.View() == st.portfolio && output.Records(st)
  }

  lemma HoldsWhen<D>(portfolio: PyPortfolio.Portfolio, output: SimulationOutput, st: RunState<D>)
    requires portfolio.Valid() && portfolio.View() == st.portfolio
    requires output.positions == st.positions && output.orders == st.orders
    requires output.fills == st.fills && output.warnings == st.warnings
    ensures Holds(portfolio, output, st)
  {
  }

  lemma WhatIsHeld<D>(portfolio: PyPortfolio.Portfolio, output: SimulationOutput, st: RunState<D>)
    requires Holds(portfolio, output, st)
    ensures portfolio.Valid() && portfolio.View() == st.portfolio
    ensures output.positions == st.positions && output.orders == st.orders
    ensures output.fills == st.fills && output.warnings == st.warnings
  {
  }

  lemma ValidView(portfolio: PyPortfolio.Portfolio)
    requires portfolio.Valid()
    ensures portfolio.View().Valid() && portfolio.View().cash == portfolio.cash
    ensures forall s :: s in portfolio.positions <==> s in portfolio.View().positions
    ensures forall s :: s in portfolio.positions ==> portfolio.View().PositionOf(s) == portfolio.positions[s].View()
  {
  }

  /** Step 1: execute the order decided on the previous bar. */
  method SettlePending<D>(env: Env<D>, portfolio: PyPortfolio.Portfolio, output: SimulationOutput,
                          pending: Option<Order>, i: nat, ghost st: RunState<D>)
    requires env.Valid() && i < |env.bars| && Holds(portfolio, output, st)
    requires st.pending == pending && (pending.Some? ==> pending.value.timestamp == env.index[i])
    modifies portfolio, portfolio.positions.Values, output
    ensures var settled := Settle(env, st, i);
            && Holds(portfolio, output, settled)
            && settled.memory == st.memory && settled.pending == None
            && settled.equity == st.equity && settled.exposure == st.exposure
    ensures fresh(portfolio.positions.Values - old(portfolio.positions).Values)
  {
    hide Execute, ApplyFill, Holds, PyPortfolio.Portfolio.View, PyPortfolio.Portfolio.Valid;
    WhatIsHeld(portfolio, output, st);
    ValidView(portfolio);
    if pending.Some? {
      var fill := ExecuteOrder(pending.value, env.Market(i), portfolio, env.config, output);
      if fill.Some? {
        portfolio.ApplyFill(fill.value, i);
        output.fills := output.fills + [fill.value];
      }
    }
    HoldsWhen(portfolio, output, Settle(env, st, i));
  }

  /** Step 2: mark to market at this bar's close. */
  method MarkToMarket<D>(env: Env<D>, portfolio: PyPortfolio.Portfolio, output: SimulationOutput,
                         i: nat, ghost st: RunState<D>)
    returns (equity: real, exposure: real, p: Position)
    requires env.Valid() && i < |env.bars| && Holds(portfolio, output, st)
    modifies portfolio, output
    ensures Holds(portfolio, output, Mark(env, st, i))
    ensures equity == Equity(st.portfolio, map[env.symbol := env.bars[i].close])
    ensures p == st.portfolio.PositionOf(env.symbol)
    ensures exposure == Exposure(p.MarketValue(env.bars[i].close), equity)
    ensures fresh(portfolio.positions.Values - old(portfolio.positions).Values)
    ensures env.symbol in portfolio.positions && portfolio.cash == st.portfolio.cash && st.portfolio.Valid()
  {
    hide Equity, Exposure, Position.MarketValue, Position.UnrealizedPnl, PyPortfolio.Portfolio.View, PyPortfolio.Portfolio.Valid;
    ValidView(portfolio);
    equity := portfolio.Equity(map[env.symbol := env.bars[i].close]);
    var position := portfolio.PositionOf(env.symbol);
    p := position.View();
    exposure := Exposure(p.MarketValue(env.bars[i].close), equity);
    output.positions := output.positions + [PositionEvent(
      env.index[i], env.symbol, p.quantity, p.averagePrice, portfolio.cash,
      p.MarketValue(env.bars[i].close), p.UnrealizedPnl(env.bars[i].close), p.realizedPnl)];
  }

  /** Step 3: the order for the next bar, if the target differs from the position. */
  method DecideTarget<D>(env: Env<D>, portfolio: PyPortfolio.Portfolio, output: SimulationOutput,
                         memory: D, o: Observation, i: nat, ghost st: RunState<D>)
    returns (pending: Option<Order>, memory': D)
    requires env.Valid() && i + 1 < |env.bars| && Holds(portfolio, output, st)
    requires memory == st.memory && st.pending == None
    requires o == Observe(env, st, i)
    modifies output
    ensures var decided := Decide(env, st, i);
            && Holds(portfolio, output, decided)
            && pending == decided.pending && memory' == decided.memory
            && decided.equity == st.equity && decided.exposure == st.exposure
  {
    hide PendingOrder, Equity;
    var decision := env.decide(memory, o);
    memory' := decision.memory;
    pending := PendingOrder(env.index[i], env.index[i + 1], env.symbol,
                            decision.target - o.position.quantity, decision.reason);
    if pending.Some? {
      output.orders := output.orders + [pending.value];
    }
  }

  lemma LiquidationFillIsPositive<D>(env: Env<D>, p: Position)
    requires env.Valid()
    ensures LiquidationFill(env, p).quantity >= 0.0
  {
  }

  /** Step 4, _liquidate: close any position at the final close. */
  method LiquidatePosition<D>(env: Env<D>, portfolio: PyPortfolio.Portfolio, output: SimulationOutput,
                              ghost st: RunState<D>)
    requires env.Valid() && Holds(portfolio, output, st) && env.symbol in portfolio.positions
    modifies portfolio, portfolio.positions.Values, output
    ensures Holds(portfolio, output, CloseOut(env, st))
  {
    hide ApplyFill, LiquidationFill, Holds, PyPortfolio.Portfolio.View, PyPortfolio.Portfolio.Valid;
    WhatIsHeld(portfolio, output, st);
    LiquidationFillIsPositive(env, st.portfolio.PositionOf(env.symbol));
    ValidView(portfolio);
    var position := portfolio.positions[env.symbol];
    if position.quantity != 0.0 {
      var fill := LiquidationFill(env, position.View());
      portfolio.ApplyFill(fill, |env.bars| - 1);
      output.fills := output.fills + [fill];
    }
    HoldsWhen(portfolio, output, CloseOut(env, st));
  }

  /** The close-out, and the last equity point restated after it. */
  method LiquidateAtEnd<D>(env: Env<D>, portfolio: PyPortfolio.Portfolio, output: SimulationOutput,
                           equityValues: seq<real>, exposureValues: seq<real>, ghost st: RunState<D>)
    returns (equities: seq<real>, exposures: seq<real>)
    requires env.Valid() && Holds(portfolio, output, st) && env.symbol in portfolio.positions
    requires equityValues == st.equity && exposureValues == st.exposure && |st.equity| == |st.exposure| == |env.bars|
    modifies portfolio, portfolio.positions.Values, output
    ensures Holds(portfolio, output, Liquidate(env, st))
    ensures equities == Liquidate(env, st).equity && exposures == Liquidate(env, st).exposure
  {
    hide CloseOut, Equity, PyPortfolio.Portfolio.View, PyPortfolio.Portfolio.Valid;
    var n := |env.bars|;
    LiquidatePosition(env, portfolio, output, st);
    var equity := portfolio.Equity(map[env.symbol := env.bars[n - 1].close]);
    equities := equityValues[n - 1 := equity];
    exposures := exposureValues[n - 1 := 0.0];
  }

  lemma BarUnfolds<D>(env: Env<D>, start: D, i: nat)
    requires env.Valid() && i < |env.bars|
    ensures Entering(env, start, 0) == Start(env, start)
    ensures Reached(env, start, i) == Mark(env, Settle(env, Entering(env, start, i), i), i)
    ensures i + 1 < |env.bars| ==> Entering(env, start, i + 1) == Decide(env, Reached(env, start, i), i)
  {
    hide Mark, Settle, Decide;
  }

  lemma StartHolds<D>(env: Env<D>, start: D, portfolio: PyPortfolio.Portfolio, output: SimulationOutput)
    requires portfolio.Valid() && portfolio.View() == NewPortfolio(env.config.initialCash) && output.Blank()
    ensures Holds(portfolio, output, Start(env, start))
  {
    hide PyPortfolio.Portfolio.View, PyPortfolio.Portfolio.Valid;
  }

  /** _run_execution. */
  method RunExecution<D>(env: Env<D>, portfolio: PyPortfolio.Portfolio, output: SimulationOutput, start: D)
    requires env.Valid()
    requires portfolio.Valid() && portfolio.View() == NewPortfolio(env.config.initialCash)
    requires output.Blank()
    modifies portfolio, portfolio.positions.Values, output
    ensures Holds(portfolio, output, Run(env, start))
    ensures output.equityCurve == Run(env, start).equity && output.exposure == Run(env, start).exposure
  {
    hide Settle, Mark, Decide, Liquidate, Observe, Equity, Entering, Reached, Holds;
    hide PyPortfolio.Portfolio.View, PyPortfolio.Portfolio.Valid;
    StartHolds(env, start, portfolio, output);
    var n := |env.bars|;
    var equityValues: seq<real>, exposureValues: seq<real> := [], [];
    var pending: Option<Order> := None;
    var memory := start;
    BarUnfolds(env, start, 0);

    for i := 0 to n
      invariant fresh(portfolio.positions.Values - old(portfolio.positions).Values)
      invariant i == n ==> env.symbol in portfolio.positions
      invariant var st := if i < n then Entering(env, start, i) else Reached(env, start, n - 1);
                && Holds(portfolio, output, st)
                && pending == st.pending && memory == st.memory
                && equityValues == st.equity && exposureValues == st.exposure
    {
      BarUnfolds(env, start, i);
      PendingIsForThisBar(env, start, i);
      ghost var entering := Entering(env, start, i);
      SettlePending(env, portfolio, output, pending, i, entering);
      pending := None;

      ghost var settled := Settle(env, entering, i);
      var equity, exposure, position := MarkToMarket(env, portfolio, output, i, settled);
      MarkShape(env, settled, i);
      equityValues := equityValues + [equity];
      exposureValues := exposureValues + [exposure];

      if i < n - 1 {
        var seen := Observation(i, env.Market(i), equity, portfolio.cash, position);
        pending, memory := DecideTarget(env, portfolio, output, memory, seen, i, Reached(env, start, i));
      }
    }

    OnePointPerBar(env, start, n - 1);
    if env.config.liquidateAtEnd {
      equityValues, exposureValues :=
        LiquidateAtEnd(env, portfolio, output, equityValues, exposureValues, Reached(env, start, n - 1));
    }
    output.equityCurve := equityValues;
    output.exposure := exposureValues;
  }
}
