/** The C++ bar loop (simulator.hpp, simulator.cpp), on values: the specification of module CppSimulator. */
module CppEngine {
  import opened Prelude
  import opened CppLedger

  datatype PriceField = Open | Close

  datatype Config = Config(initialCash: real, costs: CostModel, priceField: PriceField, liquidateAtEnd: bool)

  datatype MarketEvent = MarketEvent(bar: nat, open: real, high: real, low: real, close: real, volume: real)

  datatype OrderEvent = OrderEvent(decisionBar: nat, bar: nat, side: Side, quantity: real, reason: string)

  /** make_pending_order only makes orders for a positive quantity. */
  type Order = o: OrderEvent | o.quantity > 0.0 witness OrderEvent(0, 0, Events.Buy, 1.0, "")

  datatype PositionEvent = PositionEvent(
    bar: nat, quantity: real, averagePrice: real, cash: real, marketValue: real, unrealizedPnl: real, realizedPnl: real)

  datatype WarningKind = SkippedBuy | ReducedBuy

  datatype Warning = Warning(bar: nat, kind: WarningKind, requested: real, filled: real, fillPrice: real)

  datatype Inputs = Inputs(bars: seq<Events.Bar>, targets: seq<real>, reasons: seq<string>, config: Config)
  {
    predicate Valid() {
      |bars| > 0 && |targets| == |bars| && (reasons == [] || |reasons| == |bars|)
    }

    function Market(i: nat): MarketEvent
      requires Valid() && i < |bars|
    {
      MarketEvent(i, bars[i].open, bars[i].high, bars[i].low, bars[i].close, bars[i].volume)
    }

    function Reason(i: nat): string
      requires Valid() && i < |bars|
    {
      if reasons == [] then "" else reasons[i]
    }
  }

  datatype RunState = RunState(
    portfolio: Portfolio,
    pending: Option<Order>,
    equity: seq<real>,
    exposure: seq<real>,
    orders: seq<Order>,
    fills: seq<Fill>,
    positions: seq<PositionEvent>,
    warnings: seq<Warning>)

  function MakePendingOrder(decisionBar: nat, executionBar: nat, delta: real, reason: string): Option<Order> {
    if Magnitude(delta) < 0.000000001 then None
    else Some(OrderEvent(decisionBar, executionBar, if delta > 0.0 then Events.Buy else Events.Sell, Magnitude(delta), reason))
  }

  function ReferencePrice(market: MarketEvent, field: PriceField): real {
    if field == Open then market.open else market.close
  }

  datatype Execution =
    | WrongBar
    | Skipped(warning: Warning)
    | Executed(fill: Fill, warnings: seq<Warning>)

  function FillOf(order: Order, market: MarketEvent, reference: real, price: real, quantity: real, costs: CostModel): Fill {
    Fill(market.bar, order.side, quantity, reference, price, Commission(costs, Product(quantity, price)), order.reason)
  }

  function Execute(order: Order, market: MarketEvent, config: Config, cash: real): (r: Execution)
    ensures r.Executed? ==> r.fill.quantity > 0.0
  {
    if order.bar != market.bar then WrongBar
    else
      var reference := ReferencePrice(market, config.priceField);
      var price := FillPrice(config.costs, reference, order.side);
      var commission := Commission(config.costs, Product(order.quantity, price));
      if order.side == Events.Buy && !CanAfford(cash, order.side, order.quantity, price, commission) then
        var affordable := MaxAffordable(cash, price, config.costs.commissionBps / 10000.0);
        if affordable <= 0.0 then
          Skipped(Warning(market.bar, SkippedBuy, order.quantity, 0.0, price))
        else
          Executed(FillOf(order, market, reference, price, affordable, config.costs),
                   [Warning(market.bar, ReducedBuy, order.quantity, affordable, price)])
      else
        Executed(FillOf(order, market, reference, price, order.quantity, config.costs), [])
  }

  function Start(inputs: Inputs): RunState {
    RunState(NewPortfolio(inputs.config.initialCash), None, [], [], [], [], [], [])
  }

  /** A wrong-bar order throws; CppSimulator.PendingIsForThisBar shows that none ever reaches another bar. */
  function Settle(inputs: Inputs, st: RunState, i: nat): RunState
    requires inputs.Valid() && i < |inputs.bars|
  {
    match st.pending
    case None => st
    case Some(order) =>
      match Execute(order, inputs.Market(i), inputs.config, st.portfolio.cash)
      case WrongBar => st
      case Skipped(w) => st.(pending := None, warnings := st.warnings + [w])
      case Executed(fill, ws) =>
        st.(pending := None, warnings := st.warnings + ws, fills := st.fills + [fill],
            portfolio := ApplyFill(st.portfolio, fill, i))
  }

  function Exposure(marketValue: real, equity: real): real {
    if equity != 0.0 then marketValue / equity else 0.0
  }

  function Mark(inputs: Inputs, st: RunState, i: nat): RunState
    requires inputs.Valid() && i < |inputs.bars|
  {
    var p, close := st.portfolio.position, inputs.bars[i].close;
    var marketValue := p.MarketValue(close);
    var equity := st.portfolio.cash + marketValue;
    st.(equity := st.equity + [equity],
        exposure := st.exposure + [Exposure(marketValue, equity)],
        positions := st.positions + [PositionEvent(
          i, p.quantity, p.averagePrice, st.portfolio.cash, marketValue, p.UnrealizedPnl(close), p.realizedPnl)])
  }

  function Decide(inputs: Inputs, st: RunState, i: nat): RunState
    requires inputs.Valid() && i + 1 < |inputs.bars|
  {
    var order := MakePendingOrder(i, i + 1, inputs.targets[i] - st.portfolio.position.quantity, inputs.Reason(i));
    match order
    case None => st
    case Some(o) => st.(orders := st.orders + [o], pending := order)
  }

  function Entering(inputs: Inputs, i: nat): RunState
    requires inputs.Valid() && i < |inputs.bars|
    decreases i, 0
  {
    if i == 0 then Start(inputs) else Decide(inputs, Reached(inputs, i - 1), i - 1)
  }

  function Reached(inputs: Inputs, i: nat): RunState
    requires inputs.Valid() && i < |inputs.bars|
    decreases i, 1
  {
    Mark(inputs, Settle(inputs, Entering(inputs, i), i), i)
  }

  function LiquidationFill(inputs: Inputs, p: Position): Fill
    requires inputs.Valid()
  {
    var last := |inputs.bars| - 1;
    var side := if p.quantity > 0.0 then Events.Sell else Events.Buy;
    var reference := inputs.bars[last].close;
    var price := FillPrice(inputs.config.costs, reference, side);
    Fill(last, side, Magnitude(p.quantity), reference, price,
         Commission(inputs.config.costs, Product(Magnitude(p.quantity), price)),
         "backtest ended — position closed at the final close")
  }

  function CloseOut(inputs: Inputs, st: RunState): RunState
    requires inputs.Valid()
  {
    var p := st.portfolio.position;
    if p.IsFlat() then st
    else
      var fill := LiquidationFill(inputs, p);
      st.(portfolio := ApplyFill(st.portfolio, fill, |inputs.bars| - 1), fills := st.fills + [fill])
  }

  function Liquidate(inputs: Inputs, st: RunState): RunState
    requires inputs.Valid() && |st.equity| == |st.exposure| == |inputs.bars|
  {
    var last := |inputs.bars| - 1;
    var closed := CloseOut(inputs, st);
    closed.(equity := st.equity[last := closed.portfolio.Equity(inputs.bars[last].close)],
            exposure := st.exposure[last := 0.0])
  }

  lemma SettleShape(inputs: Inputs, st: RunState, i: nat)
    requires inputs.Valid() && i < |inputs.bars|
    ensures var s := Settle(inputs, st, i); s.equity == st.equity && s.exposure == st.exposure
  {
    hide Execute, ApplyFill;
  }

  lemma {:induction false} OnePointPerBar(inputs: Inputs, i: nat)
    requires inputs.Valid() && i < |inputs.bars|
    ensures |Reached(inputs, i).equity| == |Reached(inputs, i).exposure| == i + 1
  {
    SettleShape(inputs, Entering(inputs, i), i);
    hide Settle, MakePendingOrder, Exposure;
    if i > 0 {
      OnePointPerBar(inputs, i - 1);
    }
  }

  function Run(inputs: Inputs): RunState
    requires inputs.Valid()
  {
    var last := |inputs.bars| - 1;
    OnePointPerBar(inputs, last);
    if inputs.config.liquidateAtEnd then Liquidate(inputs, Reached(inputs, last)) else Reached(inputs, last)
  }
}
