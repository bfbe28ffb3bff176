/** simulate_targets in C++ as it is written, proved against module CppEngine. */
module CppSimulator {
  import opened Prelude
  import opened CppLedger
  import opened CppEngine
  import CppPortfolio

  datatype SimulationResult = SimulationResult(
    equityCurve: seq<real>, exposure: seq<real>, orders: seq<Order>, fills: seq<Fill>,
    positions: seq<PositionEvent>, trades: seq<Trade>, warnings: seq<Warning>,
    finalPosition: Position, finalCash: real, finalQuantity: real, realizedPnl: real,
    totalCommission: real, totalSlippage: real, totalTradedNotional: real)

  function ResultOf(st: RunState): SimulationResult {
    var l := st.portfolio;
    SimulationResult(st.equity, st.exposure, st.orders, st.fills, st.positions, l.trades, st.warnings,
                     l.position, l.cash, l.position.quantity, l.position.realizedPnl,
                     l.totalCommission, l.totalSlippage, l.totalTradedNotional)
  }

  lemma ScheduledExecutes(inputs: Inputs, st: RunState, i: nat)
    requires inputs.Valid() && i < |inputs.bars|
    requires st.pending.Some? ==> st.pending.value.bar == i
    ensures Settle(inputs, st, i).pending == None
  {
    hide ApplyFill, CanAfford, MaxAffordable, FillOf;
  }

  /** The single-slot queue: an order decided at a bar is scheduled for the next one, and gone after it. */
  lemma {:induction false} PendingIsForThisBar(inputs: Inputs, i: nat)
    requires inputs.Valid() && i < |inputs.bars|
    ensures Entering(inputs, i).pending.Some? ==> Entering(inputs, i).pending.value.bar == i
    ensures Reached(inputs, i).pending == None
  {
    hide Execute, ApplyFill, Settle, Exposure;
    if i > 0 {
      PendingIsForThisBar(inputs, i - 1);
    }
    ScheduledExecutes(inputs, Entering(inputs, i), i);
  }

  lemma LiquidationIsPositive(inputs: Inputs, p: Position)
    requires inputs.Valid()
    ensures LiquidationFill(inputs, p).quantity >= 0.0
  {
  }

  /** execute: the fill, if any, and the warnings with what it adds, for an order whose bar has come. */
  method ExecuteOrder(order: Order, market: MarketEvent, portfolio: CppPortfolio.Portfolio, config: Config, warnings: seq<Warning>)
    returns (fill: Option<Fill>, warnings': seq<Warning>)
    requires order.bar == market.bar
    ensures match Execute(order, market, config, portfolio.cash)
            case WrongBar => false
            case Skipped(w) => fill == None && warnings' == warnings + [w]
            case Executed(f, ws) => fill == Some(f) && warnings' == warnings + ws
  {
    hide CanAfford, MaxAffordable, FillPrice, Commission, Product;
    warnings' := warnings;
    var reference := ReferencePrice(market, config.priceField);
    var price := FillPrice(config.costs, reference, order.side);
    var quantity := order.quantity;
    var commission := Commission(config.costs, Product(quantity, price));
    if order.side == Events.Buy && !CanAfford(portfolio.cash, order.side, quantity, price, commission) {
      var affordable := MaxAffordable(portfolio.cash, price, config.costs.commissionBps / 10000.0);
      if affordable <= 0.0 {
        warnings' := warnings' + [Warning(market.bar, SkippedBuy, quantity, 0.0, price)];
        return None, warnings';
      }
      warnings' := warnings' + [Warning(market.bar, ReducedBuy, quantity, affordable, price)];
      quantity := affordable;
      commission := Commission(config.costs, Product(quantity, price));
    }
    fill := Some(Fill(market.bar, order.side, quantity, reference, price, commission, order.reason));
  }

  /** Step 1 of the loop. */
  method SettlePending(inputs: Inputs, portfolio: CppPortfolio.Portfolio, before: RunState, i: nat) returns (st: RunState)
    requires inputs.Valid() && i < |inputs.bars| && portfolio.View() == before.portfolio
    requires before.pending.Some? ==> before.pending.value.bar == i
    modifies portfolio
    ensures st == Settle(inputs, before, i) && portfolio.View() == st.portfolio
  {
    hide Execute, CppLedger.ApplyFill;
    st := before;
    if st.pending.Some? {
      var fill, warnings := ExecuteOrder(st.pending.value, inputs.Market(i), portfolio, inputs.config, st.warnings);
      st := st.(warnings := warnings);
      if fill.Some? {
        portfolio.ApplyFill(fill.value, i);
        st := st.(fills := st.fills + [fill.value], portfolio := portfolio.View());
      }
      st := st.(pending := None);
    }
  }

  /** Steps 2 and 3 of the loop: the marks, and the order for the next bar if there is one. */
  method MarkAndDecide(inputs: Inputs, portfolio: CppPortfolio.Portfolio, before: RunState, i: nat) returns (st: RunState)
    requires inputs.Valid() && i < |inputs.bars| && portfolio.View() == before.portfolio
    ensures portfolio.View() == st.portfolio
    ensures i + 1 < |inputs.bars| ==> st == Decide(inputs, Mark(inputs, before, i), i)
    ensures i + 1 == |inputs.bars| ==> st == Mark(inputs, before, i)
  {
    hide MakePendingOrder, Exposure, Position.MarketValue, Position.UnrealizedPnl;
    var position, close := portfolio.position, inputs.bars[i].close;
    var marketValue := position.MarketValue(close);
    var equity := portfolio.cash + marketValue;
    st := before.(equity := before.equity + [equity]);
    st := st.(exposure := st.exposure + [Exposure(marketValue, equity)]);
    st := st.(positions := st.positions + [PositionEvent(
      i, position.quantity, position.averagePrice, portfolio.cash, marketValue,
      position.UnrealizedPnl(close), position.realizedPnl)]);

    if i < |inputs.bars| - 1 {
      var order := MakePendingOrder(i, i + 1, inputs.targets[i] - position.quantity, inputs.Reason(i));
      if order.Some? {
        st := st.(orders := st.orders + [order.value], pending := order);
      }
    }
  }

  /** liquidate, and the restated last point. */
  method LiquidateAtEnd(inputs: Inputs, portfolio: CppPortfolio.Portfolio, before: RunState) returns (st: RunState)
    requires inputs.Valid() && portfolio.View() == before.portfolio
    requires |before.equity| == |before.exposure| == |inputs.bars|
    modifies portfolio
    ensures st == Liquidate(inputs, before) && portfolio.View() == st.portfolio
  {
    hide CppLedger.ApplyFill, LiquidationFill;
    var last := |inputs.bars| - 1;
    st := before;
    if !portfolio.position.IsFlat() {
      var fill := LiquidationFill(inputs, portfolio.position);
      LiquidationIsPositive(inputs, portfolio.position);
      portfolio.ApplyFill(fill, last);
      st := st.(fills := st.fills + [fill], portfolio := portfolio.View());
    }
    st := st.(equity := st.equity[last := portfolio.View().Equity(inputs.bars[last].close)]);
    st := st.(exposure := st.exposure[last := 0.0]);
  }

  method SimulateTargets(bars: seq<Events.Bar>, targets: seq<real>, reasons: seq<string>, config: Config)
    returns (r: Result<SimulationResult>)
    ensures bars == [] ==> r == Failure(EmptySeries)
    ensures bars != [] && |targets| != |bars| ==> r == Failure(TargetsLengthMismatch)
    ensures bars != [] && |targets| == |bars| && reasons != [] && |reasons| != |bars| ==> r == Failure(ReasonsLengthMismatch)
    ensures var inputs := Inputs(bars, targets, reasons, config);
            inputs.Valid() ==>
              r == if config.initialCash > 0.0 then Success(ResultOf(Run(inputs))) else Failure(NonPositiveCash)
  {
    hide Mark, Decide, Liquidate;
    if |bars| == 0 {
      return Failure(EmptySeries);
    }
    if |targets| != |bars| {
      return Failure(TargetsLengthMismatch);
    }
    if |reasons| != 0 && |reasons| != |bars| {
      return Failure(ReasonsLengthMismatch);
    }
    if !(config.initialCash > 0.0) {
      return Failure(NonPositiveCash);
    }
    hide Settle;
    var inputs := Inputs(bars, targets, reasons, config);
    var n := |bars|;
    var portfolio := new CppPortfolio.Portfolio(config.initialCash);
    var st := RunState(portfolio.View(), None, [], [], [], [], [], []);

    for i := 0 to n
      invariant portfolio.View() == st.portfolio
      invariant st == if i < n then Entering(inputs, i) else Reached(inputs, n - 1)
    {
      PendingIsForThisBar(inputs, i);
      st := SettlePending(inputs, portfolio, st, i);

      st := MarkAndDecide(inputs, portfolio, st, i);
    }

    if config.liquidateAtEnd {
      OnePointPerBar(inputs, n - 1);
      st := LiquidateAtEnd(inputs, portfolio, st);
    }
    r := Success(ResultOf(st));
  }
}
