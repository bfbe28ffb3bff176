/** How orders are executed and bars are marked, in the numbers of the configuration and of the bars. */
module Executions {
  import opened Prelude
  import opened RealMath
  import opened Events
  import opened Ledger
  import opened Engine
  import opened Steps
  import opened Cash
  import opened Tracking
  import Causality

  // ---- prices and costs

  /** Half the spread and the slippage, in basis points of the reference price, against the trader. */
  ghost function PriceFor(costs: CostModel, reference: real, side: Side): real {
    var adverse := (costs.slippageBps + costs.spreadBps / 2.0) / 10000.0;
    if side == Buy then reference * (1.0 + adverse) else reference * (1.0 - adverse)
  }

  /** Basis points of the notional, but at least the floor. */
  ghost function CommissionOn(costs: CostModel, quantity: real, price: real): real {
    var proportional := Abs(quantity * price) * costs.commissionBps / 10000.0;
    if proportional > costs.commissionMin then proportional else costs.commissionMin
  }

  /** What one more unit costs, commission in proportion. */
  ghost function UnitCost(costs: CostModel, price: real): real {
    price * (1.0 + costs.commissionBps / 10000.0)
  }

  lemma PricesMean(costs: CostModel, reference: real, side: Side, quantity: real)
    ensures costs.FillPrice(reference, side) == PriceFor(costs, reference, side)
    ensures costs.Commission(Notional(quantity, costs.FillPrice(reference, side)))
            == CommissionOn(costs, quantity, PriceFor(costs, reference, side))
    ensures PerUnit(PriceFor(costs, reference, side), costs.Rate()) == UnitCost(costs, PriceFor(costs, reference, side))
  {
    var x := costs.Penalty();
    assert 1.0 + 1.0 * x == 1.0 + x && 1.0 + -1.0 * x == 1.0 - x;
  }

  /** The fill of an order at the prices of its bar. */
  ghost predicate FillsAt(f: FillEvent, order: Order, market: MarketEvent, config: Config, quantity: real) {
    var reference := if config.executionModel == NextBarOpen then market.open else market.close;
    var price := PriceFor(config.costs, reference, order.side);
    f == FillEvent(market.timestamp, order.symbol, order.side, quantity, reference, price,
                   CommissionOn(config.costs, quantity, price), order.reason)
  }

  /** Whole, affordable at the proportional rate, and one more unit is not. */
  ghost predicate MostUnits(a: real, costs: CostModel, price: real, cash: real) {
    Whole(a) && a * UnitCost(costs, price) <= cash < (a + 1.0) * UnitCost(costs, price)
  }

  /**
   * What becomes of an order on its bar: a sale, or a buy that cash pays for with its commission, is filled in full;
   * any other buy is cut to the most units, or skipped when there is none or the price is not positive.
   */
  ghost predicate ExecutesAs(e: Execution, order: Order, market: MarketEvent, config: Config, cash: real) {
    var reference := if config.executionModel == NextBarOpen then market.open else market.close;
    var price := PriceFor(config.costs, reference, order.side);
    if order.side == Sell || cash >= order.quantity * price + CommissionOn(config.costs, order.quantity, price) then
      e.Executed? && e.warnings == [] && FillsAt(e.fill, order, market, config, order.quantity)
    else if price <= 0.0 || cash < UnitCost(config.costs, price) then
      e == Skipped(SkippedBuy(market.timestamp, order.symbol, order.quantity, price))
    else
      && e.Executed? && MostUnits(e.fill.quantity, config.costs, price, cash)
      && FillsAt(e.fill, order, market, config, e.fill.quantity)
      && e.warnings == [ReducedBuy(market.timestamp, order.symbol, order.quantity, e.fill.quantity)]
  }

  lemma UnitsMean(cash: real, price: real, rate: real)
    requires rate >= 0.0
    ensures MaxAffordable(cash, price, rate) <= 0.0 <==> price <= 0.0 || cash < PerUnit(price, rate)
    ensures var a := MaxAffordable(cash, price, rate);
            a > 0.0 ==> Whole(a) && a * PerUnit(price, rate) <= cash < (a + 1.0) * PerUnit(price, rate)
  {
    if price > 0.0 {
      PerUnitPositive(price, rate);
    }
    if price <= 0.0 || cash < 0.0 {
      NothingToSpend(cash, price, rate);
    } else {
      AffordableIsLargest(cash, price, rate);
      AtLeastOneUnit(MaxAffordable(cash, price, rate), PerUnit(price, rate), cash);
    }
    hide MaxAffordable, PerUnit, Whole;
  }

  lemma AtLeastOneUnit(a: real, per: real, cash: real)
    requires per > 0.0 && Whole(a) && a >= 0.0 && a * per <= cash < (a + 1.0) * per
    ensures a <= 0.0 <==> cash < per
  {
    if a >= 1.0 {
      MulMono(1.0, a, per);
    } else {
      WholeBelowOne(a);
    }
  }

  lemma RateNotNegative(costs: CostModel)
    requires costs.Valid()
    ensures costs.Rate() >= 0.0
  {
  }

  lemma ExecutionMeans(order: Order, market: MarketEvent, config: Config, cash: real)
    requires order.timestamp == market.timestamp && config.costs.Valid()
    ensures ExecutesAs(Execute(order, market, config, cash), order, market, config, cash)
  {
    hide CostModel.FillPrice, CostModel.Commission, CostModel.Rate, PriceFor, CommissionOn, UnitCost, MaxAffordable, PerUnit;
    var reference := config.executionModel.PriceOf(market);
    var price := PriceFor(config.costs, reference, order.side);
    PricesMean(config.costs, reference, order.side, order.quantity);
    if order.side == Buy {
      RateNotNegative(config.costs);
      UnitsMean(cash, price, config.costs.Rate());
      PricesMean(config.costs, reference, order.side, MaxAffordable(cash, price, config.costs.Rate()));
    }
  }

  /** The closing fill: the whole position, at the last close with costs. */
  lemma CloseOutMeans<D>(env: Env<D>, p: Position)
    requires env.Valid()
    ensures var last := |env.bars| - 1;
            var close, side := env.bars[last].close, if p.quantity > 0.0 then Sell else Buy;
            var price := PriceFor(env.config.costs, close, side);
            LiquidationFill(env, p) ==
            FillEvent(env.index[last], env.symbol, side, Abs(p.quantity), close, price,
                      CommissionOn(env.config.costs, Abs(p.quantity), price), "backtest ended — position closed at the final close")
  {
    hide CostModel.FillPrice, CostModel.Commission, PriceFor, CommissionOn;
    var side := if p.quantity > 0.0 then Sell else Buy;
    PricesMean(env.config.costs, env.bars[|env.bars| - 1].close, side, Abs(p.quantity));
  }

  // ---- orders

  /** What a decision leads to: an order for the difference, unless that is below 1e-9, due on the next bar. */
  lemma OrderMeans<D>(env: Env<D>, memory: D, i: nat)
    requires env.Valid() && i + 1 < |env.bars|
    ensures var target, held := DecisionAt(env, memory, i).target, QuantityAt(env, memory, i);
            var order := OrderAt(env, memory, i);
            if -0.000000001 < target - held < 0.000000001 then order == None
            else
              order == Some(OrderEvent(env.index[i], env.index[i + 1], env.symbol, if target > held then Buy else Sell,
                                       if target > held then target - held else held - target, DecisionAt(env, memory, i).reason))
  {
    hide DecisionAt, Reached;
  }

  // ---- marks

  /** What bar i records: the position as it stands at the close, the equity it makes with cash, and its share of that. */
  ghost predicate MarkedAs<D>(env: Env<D>, l: Portfolio, i: nat, event: PositionEvent, equity: real, exposure: real)
    requires env.Valid() && i < |env.bars|
  {
    var p, close := l.PositionOf(env.symbol), env.bars[i].close;
    && event.timestamp == env.index[i] && event.symbol == env.symbol
    && event.quantity == p.quantity && event.averagePrice == p.averagePrice && event.cash == l.cash
    && event.marketValue == p.quantity * close && event.unrealizedPnl == (close - p.averagePrice) * p.quantity
    && event.realizedPnl == p.realizedPnl
    && equity == event.cash + event.marketValue
    && (if equity == 0.0 then exposure == 0.0 else exposure * equity == event.marketValue)
  }

  lemma ExposureMeans(value: real, equity: real)
    ensures if equity == 0.0 then Exposure(value, equity) == 0.0 else Exposure(value, equity) * equity == value
  {
    if equity != 0.0 {
      DivMul(value, equity);
    }
  }

  lemma LastMark<D>(env: Env<D>, memory: D, i: nat)
    requires env.Valid() && i < |env.bars|
    ensures var st := Reached(env, memory, i);
            && |st.equity| == |st.exposure| == |st.positions| == i + 1
            && MarkedAs(env, st.portfolio, i, st.positions[i], st.equity[i], st.exposure[i])
  {
    hide Settle, Entering, Equity, Exposure, Solo;
    OnePointPerBar(env, memory, i);
    RunIsSolo(env, memory, i);
    var settled := Settle(env, Entering(env, memory, i), i);
    SettledIsMarked(env, settled, i);
  }

  lemma SettledIsMarked<D>(env: Env<D>, st: RunState<D>, i: nat)
    requires env.Valid() && i < |env.bars| && Solo(env.symbol, Mark(env, st, i).portfolio)
    ensures var m, n := Mark(env, st, i), |Mark(env, st, i).equity|;
            && n == |st.equity| + 1 && |m.positions| == |st.positions| + 1 && |m.exposure| == |st.exposure| + 1
            && MarkedAs(env, m.portfolio, i, m.positions[|st.positions|], m.equity[n - 1], m.exposure[|st.exposure|])
  {
    hide Equity, Exposure;
    var close := env.bars[i].close;
    var m := Mark(env, st, i);
    UntouchedIsValid(st.portfolio, env.symbol);
    TouchedEquity(st.portfolio, env.symbol, map[env.symbol := close]);
    SoloEquity(env.symbol, m.portfolio, close);
    ExposureMeans(st.portfolio.PositionOf(env.symbol).MarketValue(close), Equity(st.portfolio, map[env.symbol := close]));
  }

  /** Every earlier bar's record is kept: at bar i entry j is what bar j recorded. */
  lemma {:induction false} MarkOf<D>(env: Env<D>, memory: D, i: nat, j: nat)
    requires env.Valid() && j <= i < |env.bars|
    ensures var st := Reached(env, memory, i);
            && |st.equity| == |st.exposure| == |st.positions| == i + 1
            && MarkedAs(env, Reached(env, memory, j).portfolio, j, st.positions[j], st.equity[j], st.exposure[j])
  {
    hide Reached, MarkedAs;
    if i == j {
      LastMark(env, memory, i);
    } else {
      MarkOf(env, memory, i - 1, j);
      OnePointPerBar(env, memory, i);
      Causality.MarksAppend(env, memory, i - 1);
    }
  }

  // ---- runs from a targets array

  /** simulate_targets follows its array: with whole targets the position at bar i + 1 is targets[i], unless that bar warns. */
  lemma TargetsAreHeld(symbol: string, index: seq<Timestamp>, bars: seq<Bar>, config: Config,
                       targets: seq<real>, reasons: Option<seq<string>>, i: nat)
    requires |index| == |bars| == |targets| && (reasons.Some? ==> |reasons.value| == |bars|) && i + 1 < |bars|
    requires config.costs.Valid() && forall j :: 0 <= j < |targets| ==> Whole(targets[j])
    ensures var env := TargetsEnv(symbol, index, bars, config, targets, reasons);
            && (OrderAt(env, (), i).Some? ==> OrderAt(env, (), i).value.reason == if reasons.Some? then reasons.value[i] else "")
            && (Reached(env, (), i + 1).warnings == Reached(env, (), i).warnings ==> QuantityAt(env, (), i + 1) == targets[i])
  {
    var env := TargetsEnv(symbol, index, bars, config, targets, reasons);
    forall j: nat | j < |bars|
      ensures DecisionAt(env, (), j) == Decision(targets[j], if reasons.Some? then reasons.value[j] else "", ())
    {
      hide Reached, Equity;
    }
    hide Reached, DecisionAt, OrderAt, Tracks, Whole, TargetsEnv;
    assert WholeTargets(env, ());
    WholeTargetsAreTracked(env, (), i);
    OrderMeans(env, (), i);
  }
}
