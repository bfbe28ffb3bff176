/** The bar loop of engine.py, on values: the specification of module EngineLoop. */
module Engine {
  import opened Prelude
  import opened RealMath
  import opened Events
  import opened Ledger

  /** An order smaller than this is not placed. */
  const MINIMUM_ORDER: real := 0.000000001

  /** What a decision may look at: the bar, and the portfolio as it stands. */
  datatype Observation = Observation(bar: nat, market: MarketEvent, equity: real, cash: real, position: Position)

  /** The target to hold from the next bar, and what the decider remembers. */
  datatype Decision<D> = Decision(target: real, reason: string, memory: D)

  /** The inputs of a run. The decider's captured variables are threaded through as D. */
  datatype Env<!D> = Env(
    symbol: string,
    index: seq<Timestamp>,
    bars: seq<Bar>,
    config: Config,
    decide: (D, Observation) -> Decision<D>)
  {
    predicate Valid() {
      |index| == |bars| > 0
    }

    function Market(i: nat): MarketEvent
      requires Valid() && i < |bars|
    {
      var b := bars[i];
      MarketEvent(index[i], symbol, b.open, b.high, b.low, b.close, b.volume)
    }
  }

  datatype RunState<D> = RunState(
    portfolio: Portfolio,
    pending: Option<Order>,
    memory: D,
    equity: seq<real>,
    exposure: seq<real>,
    positions: seq<PositionEvent>,
    orders: seq<Order>,
    fills: seq<FillEvent>,
    warnings: seq<Warning>,
    raised: bool)

  function PendingOrder(decided: Timestamp, execution: Timestamp, symbol: string, delta: real, reason: string): Option<Order> {
    if Abs(delta) < MINIMUM_ORDER then None
    else Some(OrderEvent(decided, execution, symbol, if delta > 0.0 then Buy else Sell, Abs(delta), reason))
  }

  datatype Execution =
    | WrongBar
    | Skipped(warning: Warning)
    | Executed(fill: FillEvent, warnings: seq<Warning>)

  function FillOf(order: Order, market: MarketEvent, reference: real, price: real, quantity: real, costs: CostModel): FillEvent {
    FillEvent(market.timestamp, order.symbol, order.side, quantity, reference, price,
              costs.Commission(Notional(quantity, price)), order.reason)
  }

  /** An order on its bar: filled in full, cut to what cash allows, or skipped. */
  function Execute(order: Order, market: MarketEvent, config: Config, cash: real): (r: Execution)
    ensures r.Executed? ==> r.fill.quantity > 0.0
  {
    if order.timestamp != market.timestamp then WrongBar
    else
      var reference := config.executionModel.PriceOf(market);
      var price := config.costs.FillPrice(reference, order.side);
      if CanAfford(cash, order.side, order.quantity, price, config.costs.Commission(Notional(order.quantity, price))) then
        Executed(FillOf(order, market, reference, price, order.quantity, config.costs), [])
      else
        var affordable := MaxAffordable(cash, price, config.costs.Rate());
        if affordable <= 0.0 then
          Skipped(SkippedBuy(market.timestamp, order.symbol, order.quantity, price))
        else
          Executed(FillOf(order, market, reference, price, affordable, config.costs),
                   [ReducedBuy(market.timestamp, order.symbol, order.quantity, affordable)])
  }

  function Start<D>(env: Env<D>, memory: D): RunState<D> {
    RunState(NewPortfolio(env.config.initialCash), None, memory, [], [], [], [], [], [], false)
  }

  /** Step 1 of a bar: execute the order decided on the previous one. */
  function Settle<D>(env: Env<D>, st: RunState<D>, i: nat): RunState<D>
    requires env.Valid() && i < |env.bars|
  {
    match st.pending
    case None => st
    case Some(order) =>
      match Execute(order, env.Market(i), env.config, st.portfolio.cash)
      case WrongBar => st.(raised := true)
      case Skipped(w) => st.(pending := None, warnings := st.warnings + [w])
      case Executed(fill, ws) =>
        st.(pending := None, warnings := st.warnings + ws, fills := st.fills + [fill],
            portfolio := ApplyFill(st.portfolio, fill, i))
  }

  function Exposure(marketValue: real, equity: real): real {
    if equity != 0.0 then marketValue / equity else 0.0
  }

  /** Step 2: mark to market at this bar's close. */
  function Mark<D>(env: Env<D>, st: RunState<D>, i: nat): RunState<D>
    requires env.Valid() && i < |env.bars|
  {
    var close := env.bars[i].close;
    var equity := Equity(st.portfolio, map[env.symbol := close]);
    var p := st.portfolio.PositionOf(env.symbol);
    st.(portfolio := st.portfolio.Touched(env.symbol),
        equity := st.equity + [equity],
        exposure := st.exposure + [Exposure(p.MarketValue(close), equity)],
        positions := st.positions + [PositionEvent(
          env.index[i], env.symbol, p.quantity, p.averagePrice, st.portfolio.cash,
          p.MarketValue(close), p.UnrealizedPnl(close), p.realizedPnl)])
  }

  /** What the decider sees at bar i, once it has been marked. */
  function Observe<D>(env: Env<D>, st: RunState<D>, i: nat): Observation
    requires env.Valid() && i < |env.bars|
  {
    Observation(i, env.Market(i), Equity(st.portfolio, map[env.symbol := env.bars[i].close]),
                st.portfolio.cash, st.portfolio.PositionOf(env.symbol))
  }

  /** Step 3: decide the position to hold from the next bar. */
  function Decide<D>(env: Env<D>, st: RunState<D>, i: nat): RunState<D>
    requires env.Valid() && i + 1 < |env.bars|
  {
    var decision := env.decide(st.memory, Observe(env, st, i));
    var order := PendingOrder(env.index[i], env.index[i + 1], env.symbol,
                              decision.target - st.portfolio.PositionOf(env.symbol).quantity, decision.reason);
    match order
    case None => st.(memory := decision.memory)
    case Some(o) => st.(memory := decision.memory, orders := st.orders + [o], pending := order)
  }

  /** The state on entering bar i. */
  function Entering<D>(env: Env<D>, memory: D, i: nat): RunState<D>
    requires env.Valid() && i < |env.bars|
    decreases i, 0
  {
    if i == 0 then Start(env, memory) else Decide(env, Reached(env, memory, i - 1), i - 1)
  }

  /** The state once bar i is marked. */
  function Reached<D>(env: Env<D>, memory: D, i: nat): RunState<D>
    requires env.Valid() && i < |env.bars|
    decreases i, 1
  {
    Mark(env, Settle(env, Entering(env, memory, i), i), i)
  }

  const LIQUIDATION: string := "backtest ended — position closed at the final close"

  function LiquidationFill<D>(env: Env<D>, p: Position): FillEvent
    requires env.Valid()
  {
    var n := |env.bars|;
    var side := if p.quantity > 0.0 then Sell else Buy;
    var reference := env.bars[n - 1].close;
    var price := env.config.costs.FillPrice(reference, side);
    var quantity := Abs(p.quantity);
    FillEvent(env.index[n - 1], env.symbol, side, quantity, reference, price,
              env.config.costs.Commission(Notional(quantity, price)), LIQUIDATION)
  }

  /** Step 4, _liquidate: close any position at the final close. */
  function CloseOut<D>(env: Env<D>, st: RunState<D>): RunState<D>
    requires env.Valid()
  {
    var p := st.portfolio.PositionOf(env.symbol);
    if p.IsFlat() then st
    else
      var fill := LiquidationFill(env, p);
      st.(portfolio := ApplyFill(st.portfolio, fill, |env.bars| - 1), fills := st.fills + [fill])
  }

  /** The last equity point restated after the close-out. */
  function Liquidate<D>(env: Env<D>, st: RunState<D>): RunState<D>
    requires env.Valid() && |st.equity| == |st.exposure| == |env.bars|
  {
    var n := |env.bars|;
    var closed := CloseOut(env, st);
    closed.(equity := st.equity[n - 1 := Equity(closed.portfolio, map[env.symbol := env.bars[n - 1].close])],
            exposure := st.exposure[n - 1 := 0.0])
  }

  lemma SettleShape<D>(env: Env<D>, st: RunState<D>, i: nat)
    requires env.Valid() && i < |env.bars|
    ensures var s := Settle(env, st, i);
            && s.memory == st.memory && s.equity == st.equity && s.exposure == st.exposure
            && s.positions == st.positions && s.orders == st.orders
  {
    hide Execute, ApplyFill;
  }

  /** A symbol without a position adds nothing to equity. */
  lemma {:induction false} TouchedEquity(l: Portfolio, symbol: string, prices: map<string, real>)
    requires l.Valid()
    ensures Equity(l.Touched(symbol), prices) == Equity(l, prices)
  {
    if symbol !in l.positions {
      UntouchedValue(l.keys, l.positions, symbol, prices);
      MarketValueAppend(l.keys, symbol, l.positions[symbol := EmptyPosition(symbol)], prices);
      assert symbol in prices ==> EmptyPosition(symbol).MarketValue(prices[symbol]) == 0.0;
      hide MarketValue, Position.MarketValue;
    }
  }

  lemma MarketValueAppend(keys: seq<string>, s: string, m: map<string, Position>, prices: map<string, real>)
    ensures MarketValue(keys + [s], m, prices) ==
            MarketValue(keys, m, prices) + if s in prices && s in m then m[s].MarketValue(prices[s]) else 0.0
  {
    assert (keys + [s])[..|keys|] == keys;
    hide Position.MarketValue;
  }

  lemma {:induction false} UntouchedValue(keys: seq<string>, m: map<string, Position>, symbol: string, prices: map<string, real>)
    requires symbol !in keys
    ensures MarketValue(keys, m[symbol := EmptyPosition(symbol)], prices) == MarketValue(keys, m, prices)
  {
    if keys != [] {
      UntouchedValue(keys[..|keys| - 1], m, symbol, prices);
    }
  }

  lemma UntouchedIsValid(l: Portfolio, symbol: string)
    requires l.Touched(symbol).Valid()
    ensures l.Valid()
  {
    if symbol !in l.positions {
      var t := l.Touched(symbol);
      assert t.keys == l.keys + [symbol];
      assert forall i :: 0 <= i < |l.keys| ==> t.keys[i] == l.keys[i] && t.keys[i] != t.keys[|l.keys|];
      forall s
        ensures s in l.keys <==> s in l.positions
      {
        assert s in t.keys <==> s in t.positions;
      }
      assert forall s :: s in l.positions ==> t.positions[s] == l.positions[s];
    }
  }

  lemma MarkShape<D>(env: Env<D>, st: RunState<D>, i: nat)
    requires env.Valid() && i < |env.bars| && st.portfolio.Valid()
    ensures var m, close := Mark(env, st, i), env.bars[i].close;
            var equity := Equity(st.portfolio, map[env.symbol := close]);
            var p := st.portfolio.PositionOf(env.symbol);
            && m.memory == st.memory && m.pending == st.pending
            && m.equity == st.equity + [equity]
            && m.exposure == st.exposure + [Exposure(p.MarketValue(close), equity)]
            && m.portfolio.PositionOf(env.symbol) == p
            && Observe(env, m, i) == Observation(i, env.Market(i), equity, st.portfolio.cash, p)
  {
    TouchedEquity(st.portfolio, env.symbol, map[env.symbol := env.bars[i].close]);
    hide Equity;
  }

  lemma {:induction false} OnePointPerBar<D>(env: Env<D>, memory: D, i: nat)
    requires env.Valid() && i < |env.bars|
    ensures var st := Reached(env, memory, i); |st.equity| == |st.exposure| == |st.positions| == i + 1
  {
    hide Settle, Equity, PendingOrder, Exposure;
    SettleShape(env, Entering(env, memory, i), i);
    if i > 0 {
      OnePointPerBar(env, memory, i - 1);
    }
  }

  /** The whole run. */
  function Run<D>(env: Env<D>, memory: D): RunState<D>
    requires env.Valid()
  {
    var n := |env.bars|;
    OnePointPerBar(env, memory, n - 1);
    if env.config.liquidateAtEnd then Liquidate(env, Reached(env, memory, n - 1)) else Reached(env, memory, n - 1)
  }

  /** The decider of simulate_targets: the targets array, with or without reasons. */
  function TargetDecision(targets: seq<real>, reasons: Option<seq<string>>, o: Observation): Decision<()> {
    Decision(if o.bar < |targets| then targets[o.bar] else 0.0,
             if reasons.Some? && o.bar < |reasons.value| then reasons.value[o.bar] else "",
             ())
  }

  function TargetsEnv(symbol: string, index: seq<Timestamp>, bars: seq<Bar>, config: Config,
                      targets: seq<real>, reasons: Option<seq<string>>): Env<()>
  {
    Env(symbol, index, bars, config, (m: (), o: Observation) => TargetDecision(targets, reasons, o))
  }
}
