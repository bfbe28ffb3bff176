/** One bar of a run at a time: what separates the state marked at bar i from the one marked at bar i + 1. */
module Steps {
  import opened Prelude
  import opened RealMath
  import opened Events
  import opened Ledger
  import opened Conservation
  import opened Engine
  import EngineLoop

  /** The portfolio of a run: tidy, and holding the traded symbol only. */
  ghost predicate Solo(symbol: string, l: Portfolio) {
    AllTidy(l) && symbol in l.positions && forall s :: s in l.positions ==> s == symbol
  }

  lemma TwoKeysDiffer(keys: seq<string>)
    requires |keys| > 1 && forall i, j :: 0 <= i < j < |keys| ==> keys[i] != keys[j]
    ensures exists s, t :: s in keys && t in keys && s != t
  {
    assert keys[0] in keys && keys[1] in keys && keys[0] != keys[1];
  }

  lemma OnlyKey(keys: seq<string>, symbol: string)
    requires forall s :: s in keys <==> s == symbol
    requires forall i, j :: 0 <= i < j < |keys| ==> keys[i] != keys[j]
    ensures keys == [symbol]
  {
    if |keys| > 1 {
      TwoKeysDiffer(keys);
    }
    assert symbol in keys;
    assert keys[0] in keys;
  }

  lemma SoloEquity(symbol: string, l: Portfolio, price: real)
    requires Solo(symbol, l)
    ensures Equity(l, map[symbol := price]) == l.cash + l.PositionOf(symbol).MarketValue(price)
  {
    assert symbol in l.keys;
    OnlyKey(l.keys, symbol);
    var prices := map[symbol := price];
    assert l.keys[..0] == [];
    assert MarketValue([], l.positions, prices) == 0.0;
    assert MarketValue(l.keys, l.positions, prices) == 0.0 + l.positions[symbol].MarketValue(price);
  }

  lemma FillKeepsSolo(symbol: string, l: Portfolio, fill: FillEvent, bar: int)
    requires AllTidy(l) && (forall s :: s in l.positions ==> s == symbol)
    requires fill.symbol == symbol && fill.quantity > 0.0
    ensures Solo(symbol, ApplyFill(l, fill, bar))
    ensures ApplyFill(l, fill, bar).PositionOf(symbol) == Filled(l.PositionOf(symbol), fill, bar).position
    ensures ApplyFill(l, fill, bar).cash == l.cash + fill.CashDelta()
    ensures ApplyFill(l, fill, bar).trades == l.trades + Filled(l.PositionOf(symbol), fill, bar).trades
  {
    ApplyFillKeepsTidy(l, fill, bar);
    hide Filled;
  }

  /** The order decided at the close of bar i, if any. */
  ghost function OrderAt<D>(env: Env<D>, memory: D, i: nat): Option<Order>
    requires env.Valid() && i + 1 < |env.bars|
  {
    var st := Reached(env, memory, i);
    var decision := DecisionAt(env, memory, i);
    PendingOrder(env.index[i], env.index[i + 1], env.symbol,
                 decision.target - st.portfolio.PositionOf(env.symbol).quantity, decision.reason)
  }

  /** The decision taken at the close of bar i. */
  ghost function DecisionAt<D>(env: Env<D>, memory: D, i: nat): Decision<D>
    requires env.Valid() && i < |env.bars|
  {
    var st := Reached(env, memory, i);
    env.decide(st.memory, Observe(env, st, i))
  }

  ghost function QuantityAt<D>(env: Env<D>, memory: D, i: nat): real
    requires env.Valid() && i < |env.bars|
  {
    Reached(env, memory, i).portfolio.PositionOf(env.symbol).quantity
  }

  ghost function CashAt<D>(env: Env<D>, memory: D, i: nat): real
    requires env.Valid() && i < |env.bars|
  {
    Reached(env, memory, i).portfolio.cash
  }

  /** How the order decided at bar i fares on bar i + 1. */
  ghost function ExecutionAt<D>(env: Env<D>, memory: D, i: nat): Execution
    requires env.Valid() && i + 1 < |env.bars| && OrderAt(env, memory, i).Some?
  {
    Execute(OrderAt(env, memory, i).value, env.Market(i + 1), env.config, CashAt(env, memory, i))
  }

  /** The equity of the portfolio at the close of bar i. */
  ghost function EquityAt<D>(env: Env<D>, memory: D, i: nat): real
    requires env.Valid() && i < |env.bars|
  {
    Equity(Reached(env, memory, i).portfolio, map[env.symbol := env.bars[i].close])
  }

  lemma OrderFacts<D>(env: Env<D>, memory: D, i: nat)
    requires env.Valid() && i + 1 < |env.bars|
    ensures var order := OrderAt(env, memory, i);
            var delta := DecisionAt(env, memory, i).target - QuantityAt(env, memory, i);
            && (order == None <==> Abs(delta) < MINIMUM_ORDER)
            && (order.Some? ==>
                  var o := order.value;
                  && o.decisionTimestamp == env.index[i] && o.timestamp == env.index[i + 1] && o.symbol == env.symbol
                  && o.quantity == Abs(delta) && (o.side == Buy <==> delta > 0.0)
                  && o.reason == DecisionAt(env, memory, i).reason)
  {
    hide Reached, Observe;
  }

  lemma ExecuteFacts(order: Order, market: MarketEvent, config: Config, cash: real)
    ensures var e := Execute(order, market, config, cash);
            && (e.WrongBar? <==> order.timestamp != market.timestamp)
            && (e.Executed? ==>
                  var f := e.fill;
                  && f.quantity > 0.0 && f.symbol == order.symbol && f.side == order.side && f.reason == order.reason
                  && f.timestamp == market.timestamp
                  && f.referencePrice == config.executionModel.PriceOf(market)
                  && f.fillPrice == config.costs.FillPrice(f.referencePrice, order.side)
                  && f.commission == config.costs.Commission(Notional(f.quantity, f.fillPrice)))
            && (e.Executed? && e.warnings == [] ==> e.fill.quantity == order.quantity)
            && (e.Executed? && e.warnings != [] ==> |e.warnings| == 1 && e.warnings[0].ReducedBuy?)
            && (e.Skipped? ==> e.warning.SkippedBuy?)
  {
    hide CostModel.FillPrice, CostModel.Commission, CanAfford, MaxAffordable, Notional;
  }

  /** Bar i + 1 does exactly one thing with the order decided at bar i: nothing else moves the portfolio. */
  lemma {:induction false} NextBar<D>(env: Env<D>, memory: D, i: nat)
    requires env.Valid() && i + 1 < |env.bars|
    requires Solo(env.symbol, Reached(env, memory, i).portfolio)
    ensures var st, st', order := Reached(env, memory, i), Reached(env, memory, i + 1), OrderAt(env, memory, i);
            && Solo(env.symbol, st'.portfolio)
            && st'.memory == DecisionAt(env, memory, i).memory
            && (order == None ==>
                  && st'.portfolio == st.portfolio && st'.fills == st.fills
                  && st'.warnings == st.warnings && st'.orders == st.orders)
            && (order.Some? ==>
                  && st'.orders == st.orders + [order.value]
                  && match ExecutionAt(env, memory, i)
                     case WrongBar => false
                     case Skipped(w) =>
                       st'.portfolio == st.portfolio && st'.fills == st.fills && st'.warnings == st.warnings + [w]
                     case Executed(f, ws) =>
                       && f.symbol == env.symbol
                       && st'.portfolio == ApplyFill(st.portfolio, f, i + 1)
                       && st'.fills == st.fills + [f] && st'.warnings == st.warnings + ws)
  {
    hide Settle, Mark, Decide, Execute, Observe, PendingOrder, ApplyFill, Solo;
    EngineLoop.PendingIsForThisBar(env, memory, i);
    OrderFacts(env, memory, i);
    var st := Reached(env, memory, i);
    DecidedState(env, st, i);
    var entering := Entering(env, memory, i + 1);
    if OrderAt(env, memory, i).Some? {
      ExecuteFacts(OrderAt(env, memory, i).value, env.Market(i + 1), env.config, st.portfolio.cash);
    }
    SettledState(env, entering, i + 1);
    SettledPortfolio(env, entering, i + 1);
    MarkedPortfolio(env, Settle(env, entering, i + 1), i + 1);
  }

  lemma DecidedState<D>(env: Env<D>, st: RunState<D>, i: nat)
    requires env.Valid() && i + 1 < |env.bars| && st.pending == None
    ensures var decision := env.decide(st.memory, Observe(env, st, i));
            var order := PendingOrder(env.index[i], env.index[i + 1], env.symbol,
                                      decision.target - st.portfolio.PositionOf(env.symbol).quantity, decision.reason);
            var d := Decide(env, st, i);
            && d.pending == order && d.memory == decision.memory
            && d.orders == st.orders + (if order.Some? then [order.value] else [])
            && d.portfolio == st.portfolio && d.fills == st.fills && d.warnings == st.warnings
  {
    hide Observe, PendingOrder;
  }

  lemma SettledState<D>(env: Env<D>, st: RunState<D>, i: nat)
    requires env.Valid() && i < |env.bars|
    ensures var s := Settle(env, st, i);
            && s.memory == st.memory && s.orders == st.orders
            && match st.pending
               case None => s == st
               case Some(order) =>
                 match Execute(order, env.Market(i), env.config, st.portfolio.cash)
                 case WrongBar => true
                 case Skipped(w) =>
                   s.portfolio == st.portfolio && s.fills == st.fills && s.warnings == st.warnings + [w]
                 case Executed(f, ws) =>
                   && s.portfolio == ApplyFill(st.portfolio, f, i)
                   && s.fills == st.fills + [f] && s.warnings == st.warnings + ws
  {
    hide Execute, ApplyFill;
  }

  lemma SettledPortfolio<D>(env: Env<D>, st: RunState<D>, i: nat)
    requires env.Valid() && i < |env.bars| && Solo(env.symbol, st.portfolio)
    requires st.pending.Some? ==> st.pending.value.symbol == env.symbol
    ensures Solo(env.symbol, Settle(env, st, i).portfolio)
  {
    if st.pending.Some? {
      ExecuteFacts(st.pending.value, env.Market(i), env.config, st.portfolio.cash);
      hide Execute, ApplyFill;
      var e := Execute(st.pending.value, env.Market(i), env.config, st.portfolio.cash);
      if e.Executed? {
        FillKeepsSolo(env.symbol, st.portfolio, e.fill, i);
      }
    }
  }

  lemma MarkedPortfolio<D>(env: Env<D>, st: RunState<D>, i: nat)
    requires env.Valid() && i < |env.bars| && Solo(env.symbol, st.portfolio)
    ensures var m := Mark(env, st, i);
            && m.portfolio == st.portfolio && m.fills == st.fills && m.warnings == st.warnings
            && m.orders == st.orders && m.memory == st.memory
  {
    hide Equity;
  }

  lemma {:induction false} RunIsSolo<D>(env: Env<D>, memory: D, i: nat)
    requires env.Valid() && i < |env.bars|
    ensures Solo(env.symbol, Reached(env, memory, i).portfolio)
  {
    if i == 0 {
      hide Equity;
    } else {
      RunIsSolo(env, memory, i - 1);
      NextBar(env, memory, i - 1);
    }
  }

  /** Bar 0 trades nothing. */
  lemma FirstBar<D>(env: Env<D>, memory: D)
    requires env.Valid()
    ensures var st := Reached(env, memory, 0);
            && st.portfolio.cash == env.config.initialCash
            && st.portfolio.PositionOf(env.symbol) == EmptyPosition(env.symbol)
            && st.fills == [] && st.warnings == [] && st.orders == [] && st.memory == memory
            && st.portfolio.trades == []
  {
    hide Equity;
  }
}
