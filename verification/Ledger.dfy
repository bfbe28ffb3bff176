/** What portfolio.py computes, on values: the specification of class PyPortfolio.Portfolio. */
module Ledger {
  import opened Prelude
  import opened RealMath
  import opened Events

  /** Below this a remaining quantity is snapped to flat. */
  const SNAP: real := 0.000000000001

  datatype TradeDirection = Long | Short

  datatype Trade = Trade(
    symbol: string, direction: TradeDirection, quantity: real,
    entryTimestamp: Timestamp, entryPrice: real, exitTimestamp: Timestamp, exitPrice: real,
    grossPnl: real, costs: real, pnl: real, returnPct: real, barsHeld: int,
    entryReason: string, exitReason: string)

  datatype Position = Position(
    symbol: string, quantity: real, averagePrice: real, realizedPnl: real,
    entryTimestamp: Option<Timestamp>, entryBar: int, entryReason: string, openCosts: real)
  {
    predicate IsFlat() {
      quantity == 0.0
    }

    function Sign(): int {
      if quantity > 0.0 then 1 else if quantity < 0.0 then -1 else 0
    }

    function MarketValue(price: real): real {
      quantity * price
    }

    function UnrealizedPnl(price: real): real {
      (price - averagePrice) * quantity
    }
  }

  function EmptyPosition(symbol: string): Position {
    Position(symbol, 0.0, 0.0, 0.0, None, 0, "", 0.0)
  }

  /** A position after one fill, with the trades the fill completed (none or one). */
  datatype Outcome = Outcome(position: Position, trades: seq<Trade>)

  function Opened(p: Position, fill: FillEvent, signed: real, cost: real, bar: int): Position {
    p.(quantity := signed, averagePrice := fill.fillPrice, entryTimestamp := Some(fill.timestamp),
       entryBar := bar, entryReason := fill.reason, openCosts := cost)
  }

  /** The quantity-weighted average of what is held and what is added. */
  function BlendedPrice(p: Position, fill: FillEvent, signed: real): real
    requires p.quantity + signed != 0.0
  {
    (p.averagePrice * p.quantity + fill.fillPrice * signed) / (p.quantity + signed)
  }

  function Added(p: Position, fill: FillEvent, signed: real, cost: real): Position
    requires p.quantity + signed != 0.0
  {
    p.(averagePrice := BlendedPrice(p, fill, signed),
       quantity := p.quantity + signed,
       openCosts := p.openCosts + cost)
  }

  /** A share of a cost, proportional to a part of a quantity. */
  function Share(cost: real, part: real, whole: real): real {
    if whole != 0.0 then cost * (part / whole) else 0.0
  }

  function GrossResult(p: Position, fill: FillEvent, closing: real): real {
    (fill.fillPrice - p.averagePrice) * closing * p.Sign() as real
  }

  function EntryNotional(averagePrice: real, closing: real): real {
    averagePrice * closing
  }

  function ReturnPct(net: real, notional: real): real {
    if notional != 0.0 then net / notional else 0.0
  }

  function ClosingTrade(p: Position, fill: FillEvent, closing: real, exitCost: real, bar: int): Trade {
    var gross := GrossResult(p, fill, closing);
    var costs := Share(p.openCosts, closing, Abs(p.quantity)) + Share(exitCost, closing, fill.quantity);
    Trade(p.symbol, if p.Sign() > 0 then Long else Short, closing,
          if p.entryTimestamp.Some? then p.entryTimestamp.value else fill.timestamp, p.averagePrice,
          fill.timestamp, fill.fillPrice,
          gross, costs, gross - costs, ReturnPct(gross - costs, EntryNotional(p.averagePrice, closing)),
          if bar - p.entryBar > 0 then bar - p.entryBar else 0,
          p.entryReason, fill.reason)
  }

  /** What is left of a position once `closing` units are gone, before any snap to flat. */
  function Remaining(p: Position, closing: real): real {
    p.quantity + p.Sign() as real * -closing
  }

  function Closed(p: Position, fill: FillEvent, closing: real, exitCost: real, bar: int): Position {
    var rest := p.(
      realizedPnl := p.realizedPnl + ClosingTrade(p, fill, closing, exitCost, bar).pnl,
      openCosts := p.openCosts - Share(p.openCosts, closing, Abs(p.quantity)),
      quantity := Remaining(p, closing));
    if Abs(rest.quantity) < SNAP then
      rest.(quantity := 0.0, averagePrice := 0.0, entryTimestamp := None, entryReason := "", openCosts := 0.0)
    else
      rest
  }

  function ClosingQuantity(p: Position, fill: FillEvent): real {
    Min(Abs(fill.SignedQuantity()), Abs(p.quantity))
  }

  /**
   * The four cases of apply_fill on one position: open, add, reduce, reverse. Adding divides by the new quantity,
   * which is zero only when a fill of negative quantity undoes the position exactly.
   */
  function Filled(p: Position, fill: FillEvent, bar: int): Outcome
    requires fill.quantity >= 0.0 || p.quantity + fill.SignedQuantity() != 0.0
  {
    var signed := fill.SignedQuantity();
    var cost := fill.TotalCost();
    if p.IsFlat() then
      Outcome(Opened(p, fill, signed, cost, bar), [])
    else if p.Sign() == fill.side.Sign() then
      Outcome(Added(p, fill, signed, cost), [])
    else
      var closing := ClosingQuantity(p, fill);
      var trade := ClosingTrade(p, fill, closing, cost, bar);
      var rest := Closed(p, fill, closing, cost, bar);
      var remaining := Abs(signed) - closing;
      if remaining > 0.0 then
        Outcome(Opened(rest, fill, fill.side.Sign() as real * remaining, Share(cost, remaining, Abs(signed)), bar), [trade])
      else
        Outcome(rest, [trade])
  }

  /**
   * A whole portfolio. Python dictionaries keep insertion order, and sums run in that order:
   * `keys` is that order and `positions` the mapping.
   */
  datatype Portfolio = Portfolio(
    initialCash: real, cash: real, keys: seq<string>, positions: map<string, Position>, trades: seq<Trade>,
    totalCommission: real, totalSlippage: real, totalTradedNotional: real)
  {
    ghost predicate Valid() {
      && (forall i, j :: 0 <= i < j < |keys| ==> keys[i] != keys[j])
      && (forall s :: s in keys <==> s in positions)
      && (forall s :: s in positions ==> positions[s].symbol == s)
    }

    /** position(symbol): dict.setdefault. */
    function Touched(symbol: string): Portfolio {
      if symbol in positions then this
      else this.(keys := keys + [symbol], positions := positions[symbol := EmptyPosition(symbol)])
    }

    function PositionOf(symbol: string): Position {
      if symbol in positions then positions[symbol] else EmptyPosition(symbol)
    }
  }

  function NewPortfolio(initialCash: real): Portfolio {
    Portfolio(initialCash, initialCash, [], map[], [], 0.0, 0.0, 0.0)
  }

  function ApplyFill(l: Portfolio, fill: FillEvent, bar: int): Portfolio
    requires fill.quantity >= 0.0 || l.PositionOf(fill.symbol).quantity + fill.SignedQuantity() != 0.0
  {
    var t := l.Touched(fill.symbol);
    var outcome := Filled(t.positions[fill.symbol], fill, bar);
    t.(cash := l.cash + fill.CashDelta(),
       totalCommission := l.totalCommission + fill.commission,
       totalSlippage := l.totalSlippage + fill.SlippageCost(),
       totalTradedNotional := l.totalTradedNotional + Abs(Notional(fill.quantity, fill.fillPrice)),
       positions := t.positions[fill.symbol := outcome.position],
       trades := t.trades + outcome.trades)
  }

  /** sum(p.market_value(prices[p.symbol]) ...) over the positions that have a price. */
  function MarketValue(keys: seq<string>, positions: map<string, Position>, prices: map<string, real>): real {
    if keys == [] then 0.0
    else
      var s := keys[|keys| - 1];
      MarketValue(keys[..|keys| - 1], positions, prices) +
      if s in prices && s in positions then positions[s].MarketValue(prices[s]) else 0.0
  }

  function Equity(l: Portfolio, prices: map<string, real>): real {
    l.cash + MarketValue(l.keys, l.positions, prices)
  }

  predicate CanAfford(cash: real, side: Side, quantity: real, fillPrice: real, commission: real) {
    side == Sell || cash >= Notional(quantity, fillPrice) + commission
  }

  /** What one unit costs, proportional commission included. */
  function PerUnit(fillPrice: real, commissionRate: real): real {
    fillPrice * (1.0 + commissionRate)
  }

  function MaxAffordable(cash: real, fillPrice: real, commissionRate: real): real {
    if fillPrice <= 0.0 then 0.0
    else
      var perUnit := PerUnit(fillPrice, commissionRate);
      if perUnit > 0.0 then Truncate(cash / perUnit) as real else 0.0
  }
}
