/** The two engines agree: the C++ run, translated by _to_simulation_output, is the Python run. */
module Parity {
  import opened Prelude
  import opened RealMath
  import opened Events
  import L = Ledger
  import E = Engine
  import C = CppLedger
  import X = CppEngine
  import CppSimulator

  // ---- costs and affordability: the same numbers from differently written expressions

  lemma SameProduct(x: real, y: real)
    ensures C.Product(x, y) == Notional(x, y)
  {
  }

  lemma SameFillPrice(costs: CostModel, reference: real, side: Side)
    ensures C.FillPrice(costs, reference, side) == costs.FillPrice(reference, side)
  {
  }

  lemma SameCommission(costs: CostModel, notional: real)
    ensures C.Commission(costs, notional) == costs.Commission(notional)
  {
  }

  lemma SameAffordable(cash: real, price: real, rate: real)
    ensures C.MaxAffordable(cash, price, rate) == L.MaxAffordable(cash, price, rate)
  {
    assert C.Product(price, 1.0 + rate) == L.PerUnit(price, rate);
    hide C.Product, L.PerUnit, Truncate;
  }

  // ---- translation: bar indices to timestamps, one position to a dictionary

  function At(index: seq<Timestamp>, bar: nat): Timestamp {
    if bar < |index| then index[bar] else 0
  }

  function ToFill(f: C.Fill, symbol: string, index: seq<Timestamp>): FillEvent {
    FillEvent(At(index, f.bar), symbol, f.side, f.quantity, f.referencePrice, f.fillPrice, f.commission, f.reason)
  }

  function ToTrade(t: C.Trade, symbol: string, index: seq<Timestamp>): L.Trade {
    L.Trade(symbol, if t.direction > 0 then L.Long else L.Short, t.quantity,
            At(index, t.entryBar), t.entryPrice, At(index, t.exitBar), t.exitPrice,
            t.grossPnl, t.costs, t.pnl, t.returnPct, t.barsHeld, t.entryReason, t.exitReason)
  }

  /** A flat position has no entry timestamp. */
  function ToPosition(p: C.Position, symbol: string, index: seq<Timestamp>): L.Position {
    L.Position(symbol, p.quantity, p.averagePrice, p.realizedPnl,
               if p.quantity == 0.0 then None else Some(At(index, p.entryBar)),
               p.entryBar, p.entryReason, p.openCosts)
  }

  function ToTrades(ts: seq<C.Trade>, symbol: string, index: seq<Timestamp>): (r: seq<L.Trade>)
    ensures |r| == |ts|
  {
    seq(|ts|, i requires 0 <= i < |ts| => ToTrade(ts[i], symbol, index))
  }

  function ToPortfolio(l: C.Portfolio, symbol: string, index: seq<Timestamp>): L.Portfolio {
    L.Portfolio(l.initialCash, l.cash, [symbol], map[symbol := ToPosition(l.position, symbol, index)],
                ToTrades(l.trades, symbol, index), l.totalCommission, l.totalSlippage, l.totalTradedNotional)
  }

  function ToOrder(o: X.Order, symbol: string, index: seq<Timestamp>): Order {
    OrderEvent(At(index, o.decisionBar), At(index, o.bar), symbol, o.side, o.quantity, o.reason)
  }

  function ToPositionEvent(e: X.PositionEvent, symbol: string, index: seq<Timestamp>): PositionEvent {
    PositionEvent(At(index, e.bar), symbol, e.quantity, e.averagePrice, e.cash, e.marketValue, e.unrealizedPnl, e.realizedPnl)
  }

  function ToWarning(w: X.Warning, symbol: string, index: seq<Timestamp>): Warning {
    if w.kind == X.SkippedBuy then SkippedBuy(At(index, w.bar), symbol, w.requested, w.fillPrice)
    else ReducedBuy(At(index, w.bar), symbol, w.requested, w.filled)
  }

  function ToConfig(config: X.Config, allowShort: bool): Config {
    Config(config.initialCash, config.costs, if config.priceField == X.Open then NextBarOpen else NextBarClose,
           allowShort, config.liquidateAtEnd)
  }

  function ToFills(fs: seq<C.Fill>, symbol: string, index: seq<Timestamp>): (r: seq<FillEvent>)
    ensures |r| == |fs|
  {
    seq(|fs|, i requires 0 <= i < |fs| => ToFill(fs[i], symbol, index))
  }

  function ToOrders(os: seq<X.Order>, symbol: string, index: seq<Timestamp>): (r: seq<Order>)
    ensures |r| == |os|
  {
    seq(|os|, i requires 0 <= i < |os| => ToOrder(os[i], symbol, index))
  }

  function ToWarnings(ws: seq<X.Warning>, symbol: string, index: seq<Timestamp>): (r: seq<Warning>)
    ensures |r| == |ws|
  {
    seq(|ws|, i requires 0 <= i < |ws| => ToWarning(ws[i], symbol, index))
  }

  function ToPositionEvents(es: seq<X.PositionEvent>, symbol: string, index: seq<Timestamp>): (r: seq<PositionEvent>)
    ensures |r| == |es|
  {
    seq(|es|, i requires 0 <= i < |es| => ToPositionEvent(es[i], symbol, index))
  }

  // ---- one fill

  lemma SameTotals(f: C.Fill, symbol: string, index: seq<Timestamp>)
    ensures var g := ToFill(f, symbol, index);
            && f.SlippageCost() == g.SlippageCost()
            && f.TotalCost() == g.TotalCost()
            && f.CashDelta() == g.CashDelta()
  {
    assert C.Magnitude(f.fillPrice - f.referencePrice) == Abs(f.fillPrice - f.referencePrice);
    SameProduct(f.quantity, f.fillPrice);
    hide C.Product, Notional;
  }

  lemma SameShares(p: C.Position, f: C.Fill, closing: real, cost: real, symbol: string, index: seq<Timestamp>)
    requires !p.IsFlat()
    ensures var q, g := ToPosition(p, symbol, index), ToFill(f, symbol, index);
            && C.EntryShare(p, closing) == L.Share(p.openCosts, closing, Abs(p.quantity))
            && C.ExitShare(f, cost, closing) == L.Share(cost, closing, f.quantity)
            && C.Gross(p, f, closing) == L.GrossResult(q, g, closing)
            && q.Sign() == p.Sign()
  {
    assert C.Magnitude(p.quantity) == Abs(p.quantity) != 0.0;
  }

  lemma SameRatio(net: real, price: real, closing: real)
    ensures C.Ratio(net, C.Product(price, closing)) == L.ReturnPct(net, L.EntryNotional(price, closing))
  {
    assert C.Product(price, closing) == L.EntryNotional(price, closing);
    hide C.Product, L.EntryNotional;
  }

  lemma SameClosingTrade(p: C.Position, f: C.Fill, closing: real, cost: real, symbol: string, index: seq<Timestamp>)
    requires !p.IsFlat()
    ensures ToTrade(C.ClosingTrade(p, f, closing, cost, f.bar), symbol, index) ==
            L.ClosingTrade(ToPosition(p, symbol, index), ToFill(f, symbol, index), closing, cost, f.bar)
  {
    SameShares(p, f, closing, cost, symbol, index);
    var net := C.Gross(p, f, closing) - (C.EntryShare(p, closing) + C.ExitShare(f, cost, closing));
    SameRatio(net, p.averagePrice, closing);
    hide C.EntryShare, C.ExitShare, C.Gross, C.Ratio, C.Product, L.Share, L.GrossResult, L.ReturnPct, L.EntryNotional;
    var t := C.ClosingTrade(p, f, closing, cost, f.bar);
    var u := L.ClosingTrade(ToPosition(p, symbol, index), ToFill(f, symbol, index), closing, cost, f.bar);
    assert t.pnl == net == u.pnl && t.costs == u.costs;
    assert t.returnPct == u.returnPct;
  }

  lemma SameClosed(p: C.Position, f: C.Fill, closing: real, cost: real, symbol: string, index: seq<Timestamp>)
    requires !p.IsFlat()
    ensures ToPosition(C.Closed(p, f, closing, cost, f.bar), symbol, index) ==
            L.Closed(ToPosition(p, symbol, index), ToFill(f, symbol, index), closing, cost, f.bar)
  {
    hide C.EntryShare, L.Share, C.ClosingTrade, L.ClosingTrade;
    SameShares(p, f, closing, cost, symbol, index);
    SameClosingTrade(p, f, closing, cost, symbol, index);
  }

  lemma SameBlend(p: C.Position, f: C.Fill, signed: real, symbol: string, index: seq<Timestamp>)
    requires p.quantity + signed != 0.0
    ensures C.BlendedPrice(p, f, signed) == L.BlendedPrice(ToPosition(p, symbol, index), ToFill(f, symbol, index), signed)
  {
  }

  lemma SameReversalShare(cost: real, remaining: real, incoming: real)
    requires incoming != 0.0
    ensures C.ReversalShare(cost, remaining, incoming) == L.Share(cost, remaining, incoming)
  {
  }

  /** Open, add, reduce and reverse agree case for case. */
  lemma SameFilled(p: C.Position, f: C.Fill, symbol: string, index: seq<Timestamp>)
    requires f.quantity > 0.0
    ensures var o := C.Filled(p, f, f.bar);
            var u := L.Filled(ToPosition(p, symbol, index), ToFill(f, symbol, index), f.bar);
            ToPosition(o.position, symbol, index) == u.position && ToTrades(o.trades, symbol, index) == u.trades
  {
    var g := ToFill(f, symbol, index);
    SameTotals(f, symbol, index);
    FillSize(f, g);
    var signed, cost := g.SignedQuantity(), f.TotalCost();
    if p.IsFlat() {
      hide C.Fill.TotalCost, FillEvent.TotalCost, FillEvent.SignedQuantity;
    } else if p.Sign() == f.side.Sign() {
      SameBlend(p, f, signed, symbol, index);
      hide C.BlendedPrice, L.BlendedPrice, C.Fill.TotalCost, FillEvent.TotalCost, FillEvent.SignedQuantity;
    } else {
      var closing := L.ClosingQuantity(ToPosition(p, symbol, index), g);
      SameClosingTrade(p, f, closing, cost, symbol, index);
      SameClosed(p, f, closing, cost, symbol, index);
      SameReversalShare(cost, Abs(signed) - closing, Abs(signed));
      assert closing == if C.Magnitude(signed) < C.Magnitude(p.quantity) then C.Magnitude(signed) else C.Magnitude(p.quantity);
      hide C.ReversalShare, L.Share, C.Closed, L.Closed, C.ClosingTrade, L.ClosingTrade;
      hide C.Fill.TotalCost, FillEvent.TotalCost, FillEvent.SignedQuantity;
    }
  }

  lemma FillSize(f: C.Fill, g: FillEvent)
    requires f.quantity == g.quantity > 0.0 && f.side == g.side
    ensures f.side.Sign() as real * f.quantity == g.SignedQuantity()
    ensures g.SignedQuantity() != 0.0 && Abs(g.SignedQuantity()) == C.Magnitude(g.SignedQuantity()) == f.quantity
  {
  }

  // ---- one bar

  lemma TradesConcat(a: seq<C.Trade>, b: seq<C.Trade>, symbol: string, index: seq<Timestamp>)
    ensures ToTrades(a + b, symbol, index) == ToTrades(a, symbol, index) + ToTrades(b, symbol, index)
  {
  }

  lemma SameApplyFill(l: C.Portfolio, m: L.Portfolio, f: C.Fill, symbol: string, index: seq<Timestamp>)
    requires f.quantity > 0.0 && m.Touched(symbol) == ToPortfolio(l, symbol, index)
    ensures L.ApplyFill(m, ToFill(f, symbol, index), f.bar) == ToPortfolio(C.ApplyFill(l, f, f.bar), symbol, index)
  {
    hide C.Filled, L.Filled, C.Fill.CashDelta, FillEvent.CashDelta, C.Fill.SlippageCost, FillEvent.SlippageCost, C.Product, Notional, ToTrades;
    var g := ToFill(f, symbol, index);
    SameTotals(f, symbol, index);
    SameFilled(l.position, f, symbol, index);
    SameProduct(f.quantity, f.fillPrice);
    TradesConcat(l.trades, C.Filled(l.position, f, f.bar).trades, symbol, index);
    var u := L.Filled(ToPosition(l.position, symbol, index), g, f.bar);
    assert m.Touched(symbol).positions[symbol := u.position] == map[symbol := u.position];
  }

  function ToExecution(e: X.Execution, symbol: string, index: seq<Timestamp>): E.Execution {
    match e
    case WrongBar => E.WrongBar
    case Skipped(w) => E.Skipped(ToWarning(w, symbol, index))
    case Executed(f, ws) => E.Executed(ToFill(f, symbol, index), ToWarnings(ws, symbol, index))
  }

  function ToMarket(m: X.MarketEvent, symbol: string, index: seq<Timestamp>): MarketEvent {
    MarketEvent(At(index, m.bar), symbol, m.open, m.high, m.low, m.close, m.volume)
  }

  lemma SameFillOf(o: X.Order, m: X.MarketEvent, reference: real, price: real, quantity: real, costs: CostModel,
                   symbol: string, index: seq<Timestamp>)
    ensures ToFill(X.FillOf(o, m, reference, price, quantity, costs), symbol, index) ==
            E.FillOf(ToOrder(o, symbol, index), ToMarket(m, symbol, index), reference, price, quantity, costs)
  {
    SameProduct(quantity, price);
    SameCommission(costs, Notional(quantity, price));
    hide C.Product, Notional, C.Commission, CostModel.Commission;
  }

  lemma SameAffordability(cash: real, side: Side, quantity: real, price: real, costs: CostModel)
    ensures C.CanAfford(cash, side, quantity, price, C.Commission(costs, C.Product(quantity, price))) ==
            L.CanAfford(cash, side, quantity, price, costs.Commission(Notional(quantity, price)))
  {
    SameProduct(quantity, price);
    SameCommission(costs, Notional(quantity, price));
    hide C.Product, Notional, C.Commission, CostModel.Commission;
  }

  /** An order that reached its bar fills, is cut or is skipped alike. */
  lemma SameExecute(o: X.Order, m: X.MarketEvent, config: X.Config, allowShort: bool, cash: real,
                    symbol: string, index: seq<Timestamp>)
    requires o.bar == m.bar
    ensures E.Execute(ToOrder(o, symbol, index), ToMarket(m, symbol, index), ToConfig(config, allowShort), cash) ==
            ToExecution(X.Execute(o, m, config, cash), symbol, index)
  {
    var costs := config.costs;
    var reference := X.ReferencePrice(m, config.priceField);
    SameFillPrice(costs, reference, o.side);
    var price := costs.FillPrice(reference, o.side);
    SameAffordability(cash, o.side, o.quantity, price, costs);
    SameAffordable(cash, price, costs.Rate());
    var affordable := L.MaxAffordable(cash, price, costs.Rate());
    SameFillOf(o, m, reference, price, o.quantity, costs, symbol, index);
    SameFillOf(o, m, reference, price, affordable, costs, symbol, index);
    assert C.CanAfford(cash, Sell, o.quantity, price, C.Commission(costs, C.Product(o.quantity, price)));
    assert costs.Rate() == costs.commissionBps / 10000.0;
    hide C.Product, Notional, C.Commission, CostModel.Commission, C.FillPrice, CostModel.FillPrice, CostModel.Rate;
    hide C.CanAfford, L.CanAfford, C.MaxAffordable, L.MaxAffordable, X.FillOf, E.FillOf;
  }

  function ToPending(o: Option<X.Order>, symbol: string, index: seq<Timestamp>): Option<Order> {
    match o
    case None => None
    case Some(order) => Some(ToOrder(order, symbol, index))
  }

  /** What _to_simulation_output rebuilds from the extension's result. */
  function ToRun(st: X.RunState, symbol: string, index: seq<Timestamp>): E.RunState<()> {
    E.RunState(ToPortfolio(st.portfolio, symbol, index), ToPending(st.pending, symbol, index), (),
               st.equity, st.exposure, ToPositionEvents(st.positions, symbol, index), ToOrders(st.orders, symbol, index),
               ToFills(st.fills, symbol, index), ToWarnings(st.warnings, symbol, index), false)
  }

  /** The C++ state st and the Python state pt agree; Python may not have entered the symbol yet. */
  ghost predicate Agree(st: X.RunState, pt: E.RunState<()>, symbol: string, index: seq<Timestamp>) {
    && pt.portfolio.Valid()
    && pt.(portfolio := pt.portfolio.Touched(symbol)) == ToRun(st, symbol, index)
  }

  /** The two engines are given the same bars, targets, reasons and costs. */
  ghost predicate SameInputs(inputs: X.Inputs, env: E.Env<()>, allowShort: bool, reasons: Option<seq<string>>) {
    && inputs.Valid() && env.Valid()
    && env == E.TargetsEnv(env.symbol, env.index, inputs.bars, ToConfig(inputs.config, allowShort), inputs.targets, reasons)
    && (reasons.Some? ==> |reasons.value| == |inputs.bars|)
    && inputs.reasons == (if reasons.Some? then reasons.value else [])
  }

  lemma FillsAppend(a: seq<C.Fill>, x: C.Fill, symbol: string, index: seq<Timestamp>)
    ensures ToFills(a + [x], symbol, index) == ToFills(a, symbol, index) + [ToFill(x, symbol, index)]
  {
  }

  lemma WarningsConcat(a: seq<X.Warning>, b: seq<X.Warning>, symbol: string, index: seq<Timestamp>)
    ensures ToWarnings(a + b, symbol, index) == ToWarnings(a, symbol, index) + ToWarnings(b, symbol, index)
  {
  }

  lemma OneWarning(w: X.Warning, symbol: string, index: seq<Timestamp>)
    ensures ToWarnings([w], symbol, index) == [ToWarning(w, symbol, index)]
  {
  }

  lemma OrdersAppend(a: seq<X.Order>, x: X.Order, symbol: string, index: seq<Timestamp>)
    ensures ToOrders(a + [x], symbol, index) == ToOrders(a, symbol, index) + [ToOrder(x, symbol, index)]
  {
  }

  lemma EventsAppend(a: seq<X.PositionEvent>, x: X.PositionEvent, symbol: string, index: seq<Timestamp>)
    ensures ToPositionEvents(a + [x], symbol, index) == ToPositionEvents(a, symbol, index) + [ToPositionEvent(x, symbol, index)]
  {
  }

  lemma NeverWrongBar(order: X.Order, market: X.MarketEvent, config: X.Config, cash: real)
    requires order.bar == market.bar
    ensures X.Execute(order, market, config, cash) != X.WrongBar
  {
    hide C.CanAfford, C.MaxAffordable, X.FillOf;
  }

  lemma SettleAgrees(inputs: X.Inputs, env: E.Env<()>, allowShort: bool, reasons: Option<seq<string>>,
                     st: X.RunState, pt: E.RunState<()>, i: nat)
    requires SameInputs(inputs, env, allowShort, reasons) && i < |env.bars|
    requires Agree(st, pt, env.symbol, env.index)
    requires st.pending.Some? ==> st.pending.value.bar == i
    ensures Agree(X.Settle(inputs, st, i), E.Settle(env, pt, i), env.symbol, env.index)
  {
    hide X.Execute, E.Execute, C.ApplyFill, L.ApplyFill, ToPortfolio, ToFills, ToWarnings, ToOrders, ToPositionEvents;
    var symbol, index := env.symbol, env.index;
    AgreeingCash(st, pt, symbol, index);
    if st.pending.Some? {
      var o := st.pending.value;
      SameExecute(o, inputs.Market(i), inputs.config, allowShort, st.portfolio.cash, symbol, index);
      assert ToMarket(inputs.Market(i), symbol, index) == env.Market(i);
      assert ToConfig(inputs.config, allowShort) == env.config;
      match X.Execute(o, inputs.Market(i), inputs.config, st.portfolio.cash)
      case WrongBar =>
        NeverWrongBar(o, inputs.Market(i), inputs.config, st.portfolio.cash);
      case Skipped(w) =>
        WarningsConcat(st.warnings, [w], symbol, index);
        OneWarning(w, symbol, index);
      case Executed(f, ws) =>
        WarningsConcat(st.warnings, ws, symbol, index);
        FillsAppend(st.fills, f, symbol, index);
        ExecutedOnBar(o, inputs.Market(i), inputs.config, st.portfolio.cash);
        SameApplyFill(st.portfolio, pt.portfolio, f, symbol, index);
        AppliedIsTouched(st.portfolio, pt.portfolio, f, symbol, index);
    }
  }

  lemma AgreeingCash(st: X.RunState, pt: E.RunState<()>, symbol: string, index: seq<Timestamp>)
    requires Agree(st, pt, symbol, index)
    ensures pt.portfolio.cash == st.portfolio.cash
    ensures pt.portfolio.Touched(symbol) == ToPortfolio(st.portfolio, symbol, index)
  {
  }

  lemma ExecutedOnBar(o: X.Order, m: X.MarketEvent, config: X.Config, cash: real)
    ensures var e := X.Execute(o, m, config, cash); e.Executed? ==> e.fill.bar == m.bar
  {
    hide C.FillPrice, C.Commission, C.CanAfford, C.MaxAffordable, C.Product;
  }

  lemma AppliedIsTouched(l: C.Portfolio, m: L.Portfolio, f: C.Fill, symbol: string, index: seq<Timestamp>)
    requires f.quantity > 0.0 && m.Touched(symbol) == ToPortfolio(l, symbol, index)
    ensures var after := L.ApplyFill(m, ToFill(f, symbol, index), f.bar); after.Valid() && after.Touched(symbol) == after
  {
    hide C.ApplyFill, L.ApplyFill;
    SameApplyFill(l, m, f, symbol, index);
  }

  lemma SoleEquity(l: C.Portfolio, symbol: string, index: seq<Timestamp>, price: real)
    ensures L.Equity(ToPortfolio(l, symbol, index), map[symbol := price]) == l.cash + l.position.MarketValue(price)
  {
    var m, prices := ToPortfolio(l, symbol, index), map[symbol := price];
    assert m.keys[..0] == [];
    assert L.MarketValue([], m.positions, prices) == 0.0;
    assert L.MarketValue(m.keys, m.positions, prices) == 0.0 + m.positions[symbol].MarketValue(price);
  }

  lemma SameExposure(marketValue: real, equity: real)
    ensures X.Exposure(marketValue, equity) == E.Exposure(marketValue, equity)
  {
  }

  lemma MarkAgrees(inputs: X.Inputs, env: E.Env<()>, allowShort: bool, reasons: Option<seq<string>>,
                   st: X.RunState, pt: E.RunState<()>, i: nat)
    requires SameInputs(inputs, env, allowShort, reasons) && i < |env.bars|
    requires Agree(st, pt, env.symbol, env.index)
    ensures E.Mark(env, pt, i) == ToRun(X.Mark(inputs, st, i), env.symbol, env.index)
  {
    hide L.Equity, ToFills, ToWarnings, ToOrders, ToPosition, C.Position.MarketValue, L.Position.MarketValue, C.Position.UnrealizedPnl, L.Position.UnrealizedPnl;
    var symbol, index, close := env.symbol, env.index, env.bars[i].close;
    var p := st.portfolio.position;
    E.TouchedEquity(pt.portfolio, symbol, map[symbol := close]);
    AgreeingCash(st, pt, symbol, index);
    SoleEquity(st.portfolio, symbol, index, close);
    SameExposure(p.MarketValue(close), st.portfolio.cash + p.MarketValue(close));
    assert pt.portfolio.PositionOf(symbol) == ToPosition(p, symbol, index) by {
      assert pt.portfolio.PositionOf(symbol) == pt.portfolio.Touched(symbol).positions[symbol];
    }
    var event := X.PositionEvent(i, p.quantity, p.averagePrice, st.portfolio.cash, p.MarketValue(close),
                                 p.UnrealizedPnl(close), p.realizedPnl);
    EventsAppend(st.positions, event, symbol, index);
    SameMarks(p, symbol, index, close);
    hide X.Exposure, E.Exposure, ToPositionEvents, ToPortfolio;
  }

  lemma SameMarks(p: C.Position, symbol: string, index: seq<Timestamp>, price: real)
    ensures var q := ToPosition(p, symbol, index);
            && q.MarketValue(price) == p.MarketValue(price) && q.UnrealizedPnl(price) == p.UnrealizedPnl(price)
            && q.quantity == p.quantity && q.averagePrice == p.averagePrice && q.realizedPnl == p.realizedPnl
  {
  }

  lemma DecideAgrees(inputs: X.Inputs, env: E.Env<()>, allowShort: bool, reasons: Option<seq<string>>,
                     st: X.RunState, i: nat)
    requires SameInputs(inputs, env, allowShort, reasons) && i + 1 < |env.bars|
    ensures E.Decide(env, ToRun(st, env.symbol, env.index), i) == ToRun(X.Decide(inputs, st, i), env.symbol, env.index)
  {
    hide ToOrders, ToWarnings;
    var symbol, index := env.symbol, env.index;
    var pt := ToRun(st, symbol, index);
    var o := E.Observe(env, pt, i);
    assert o.bar == i;
    assert env.decide((), o) == E.TargetDecision(inputs.targets, reasons, o);
    assert env.decide((), o) == E.Decision(inputs.targets[i], inputs.Reason(i), ());
    var delta := inputs.targets[i] - st.portfolio.position.quantity;
    var order := X.MakePendingOrder(i, i + 1, delta, inputs.Reason(i));
    assert E.PendingOrder(index[i], index[i + 1], symbol, delta, inputs.Reason(i)) == ToPending(order, symbol, index);
    hide E.PendingOrder, X.MakePendingOrder, E.Observe, ToFills, ToPositionEvents;
    if order.Some? {
      OrdersAppend(st.orders, order.value, symbol, index);
    }
  }

  lemma {:induction false} ReachedAgrees(inputs: X.Inputs, env: E.Env<()>, allowShort: bool, reasons: Option<seq<string>>, i: nat)
    requires SameInputs(inputs, env, allowShort, reasons) && i < |env.bars|
    ensures E.Reached(env, (), i) == ToRun(X.Reached(inputs, i), env.symbol, env.index)
  {
    hide X.Settle, X.Mark, X.Decide, E.Settle, E.Mark, E.Decide, ToRun;
    CppSimulator.PendingIsForThisBar(inputs, i);
    if i == 0 {
      StartAgrees(inputs, env, allowShort, reasons);
    } else {
      ReachedAgrees(inputs, env, allowShort, reasons, i - 1);
      DecideAgrees(inputs, env, allowShort, reasons, X.Reached(inputs, i - 1), i - 1);
      TranslatedAgrees(X.Entering(inputs, i), env.symbol, env.index);
    }
    SettleAgrees(inputs, env, allowShort, reasons, X.Entering(inputs, i), E.Entering(env, (), i), i);
    MarkAgrees(inputs, env, allowShort, reasons, X.Settle(inputs, X.Entering(inputs, i), i),
               E.Settle(env, E.Entering(env, (), i), i), i);
  }

  lemma StartAgrees(inputs: X.Inputs, env: E.Env<()>, allowShort: bool, reasons: Option<seq<string>>)
    requires SameInputs(inputs, env, allowShort, reasons)
    ensures Agree(X.Start(inputs), E.Start(env, ()), env.symbol, env.index)
  {
  }

  lemma TranslatedAgrees(st: X.RunState, symbol: string, index: seq<Timestamp>)
    ensures Agree(st, ToRun(st, symbol, index), symbol, index)
  {
  }

  // ---- the whole run

  lemma SameLiquidationFill(inputs: X.Inputs, env: E.Env<()>, allowShort: bool, reasons: Option<seq<string>>, p: C.Position)
    requires SameInputs(inputs, env, allowShort, reasons)
    ensures ToFill(X.LiquidationFill(inputs, p), env.symbol, env.index) ==
            E.LiquidationFill(env, ToPosition(p, env.symbol, env.index))
    ensures X.LiquidationFill(inputs, p).bar == |inputs.bars| - 1
    ensures !p.IsFlat() ==> X.LiquidationFill(inputs, p).quantity > 0.0
  {
    var side := if p.quantity > 0.0 then Sell else Buy;
    var reference := inputs.bars[|inputs.bars| - 1].close;
    SameFillPrice(inputs.config.costs, reference, side);
    var price := inputs.config.costs.FillPrice(reference, side);
    assert C.Magnitude(p.quantity) == Abs(p.quantity);
    SameProduct(Abs(p.quantity), price);
    SameCommission(inputs.config.costs, Notional(Abs(p.quantity), price));
    hide C.FillPrice, CostModel.FillPrice, C.Product, Notional, C.Commission, CostModel.Commission;
  }

  lemma CloseOutAgrees(inputs: X.Inputs, env: E.Env<()>, allowShort: bool, reasons: Option<seq<string>>, st: X.RunState)
    requires SameInputs(inputs, env, allowShort, reasons)
    ensures E.CloseOut(env, ToRun(st, env.symbol, env.index)) == ToRun(X.CloseOut(inputs, st), env.symbol, env.index)
  {
    hide C.ApplyFill, L.ApplyFill, ToFills, X.LiquidationFill, E.LiquidationFill;
    var symbol, index, p := env.symbol, env.index, st.portfolio.position;
    SameLiquidationFill(inputs, env, allowShort, reasons, p);
    if !p.IsFlat() {
      var f := X.LiquidationFill(inputs, p);
      hide X.LiquidationFill, E.LiquidationFill;
      SameApplyFill(st.portfolio, ToPortfolio(st.portfolio, symbol, index), f, symbol, index);
      FillsAppend(st.fills, f, symbol, index);
    }
  }

  lemma LiquidateAgrees(inputs: X.Inputs, env: E.Env<()>, allowShort: bool, reasons: Option<seq<string>>, st: X.RunState)
    requires SameInputs(inputs, env, allowShort, reasons)
    requires |st.equity| == |st.exposure| == |env.bars|
    ensures E.Liquidate(env, ToRun(st, env.symbol, env.index)) == ToRun(X.Liquidate(inputs, st), env.symbol, env.index)
  {
    hide X.CloseOut, E.CloseOut, L.Equity, ToPortfolio, ToFills, ToWarnings, ToOrders, ToPositionEvents, C.Portfolio.Equity;
    CloseOutAgrees(inputs, env, allowShort, reasons, st);
    var closed := X.CloseOut(inputs, st);
    SoleEquity(closed.portfolio, env.symbol, env.index, env.bars[|env.bars| - 1].close);
    assert closed.portfolio.Equity(env.bars[|env.bars| - 1].close) ==
           closed.portfolio.cash + closed.portfolio.position.MarketValue(env.bars[|env.bars| - 1].close) by {
      EquityIsCashPlusValue(closed.portfolio, env.bars[|env.bars| - 1].close);
    }
  }

  lemma EquityIsCashPlusValue(l: C.Portfolio, price: real)
    ensures l.Equity(price) == l.cash + l.position.MarketValue(price)
  {
  }

  /**
   * Engine parity, for every bar series, target and reason list and configuration: the C++ run, mapped back
   * from bar indices and one position to timestamps and a dictionary, is the Python run - equity, exposure,
   * orders, fills, position events, warnings, trades, the portfolio left and its totals.
   */
  lemma EnginesAgree(inputs: X.Inputs, env: E.Env<()>, allowShort: bool, reasons: Option<seq<string>>)
    requires SameInputs(inputs, env, allowShort, reasons)
    ensures E.Run(env, ()) == ToRun(X.Run(inputs), env.symbol, env.index)
  {
    hide X.Reached, E.Reached, X.Liquidate, E.Liquidate, ToRun;
    var last := |env.bars| - 1;
    ReachedAgrees(inputs, env, allowShort, reasons, last);
    E.OnePointPerBar(env, (), last);
    X.OnePointPerBar(inputs, last);
    if inputs.config.liquidateAtEnd {
      LiquidateAgrees(inputs, env, allowShort, reasons, X.Reached(inputs, last));
    }
  }
}
