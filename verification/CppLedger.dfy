/** The C++ executor's events, costs and single-position portfolio (costs.hpp, events.hpp, portfolio.hpp), on values. */
module CppLedger {
  import opened RealMath
  import Events

  type Side = Events.Side

  type CostModel = Events.CostModel

  /** x < 0 ? -x : x, as the sources write it and as std::fabs computes it. */
  function Magnitude(x: real): real {
    if x < 0.0 then -x else x
  }

  function Product(x: real, y: real): real {
    x * y
  }

  function FillPrice(costs: CostModel, reference: real, side: Side): real {
    var penalty := (costs.slippageBps + costs.spreadBps / 2.0) / 10000.0;
    reference * (1.0 + side.Sign() as real * penalty)
  }

  function Commission(costs: CostModel, notional: real): real {
    var proportional := Magnitude(notional) * costs.commissionBps / 10000.0;
    if costs.commissionMin > proportional then costs.commissionMin else proportional
  }

  datatype Fill = Fill(
    bar: nat, side: Side, quantity: real, referencePrice: real, fillPrice: real, commission: real, reason: string)
  {
    function SlippageCost(): real {
      Magnitude(fillPrice - referencePrice) * quantity
    }

    function TotalCost(): real {
      commission + SlippageCost()
    }

    function CashDelta(): real {
      -(side.Sign() as real) * Product(quantity, fillPrice) - commission
    }
  }

  datatype Trade = Trade(
    direction: int, quantity: real, entryBar: nat, entryPrice: real, exitBar: nat, exitPrice: real,
    grossPnl: real, costs: real, pnl: real, returnPct: real, barsHeld: int, entryReason: string, exitReason: string)

  datatype Position = Position(
    quantity: real, averagePrice: real, realizedPnl: real, entryBar: nat, entryReason: string, openCosts: real)
  {
    predicate IsFlat() {
      quantity == 0.0
    }

    function Sign(): int {
      if quantity > 0.0 then 1 else if quantity < 0.0 then -1 else 0
    }

    function MarketValue(price: real): real {
      quantity * price
    }

    function UnrealizedPnl(price: real): real {
      (price - averagePrice) * quantity
    }
  }

  const FLAT_POSITION: Position := Position(0.0, 0.0, 0.0, 0, "", 0.0)

  datatype Portfolio = Portfolio(
    initialCash: real, cash: real, position: Position, trades: seq<Trade>,
    totalCommission: real, totalSlippage: real, totalTradedNotional: real)
  {
    function Equity(price: real): real {
      cash + position.MarketValue(price)
    }
  }

  function NewPortfolio(initialCash: real): Portfolio {
    Portfolio(initialCash, initialCash, FLAT_POSITION, [], 0.0, 0.0, 0.0)
  }

  function Opened(p: Position, fill: Fill, signed: real, cost: real, bar: nat): Position {
    p.(quantity := signed, averagePrice := fill.fillPrice, entryBar := bar, entryReason := fill.reason, openCosts := cost)
  }

  function BlendedPrice(p: Position, fill: Fill, signed: real): real
    requires p.quantity + signed != 0.0
  {
    (p.averagePrice * p.quantity + fill.fillPrice * signed) / (p.quantity + signed)
  }

  function Added(p: Position, fill: Fill, signed: real, cost: real): Position
    requires p.quantity + signed != 0.0
  {
    p.(averagePrice := BlendedPrice(p, fill, signed), quantity := p.quantity + signed, openCosts := p.openCosts + cost)
  }

  function EntryShare(p: Position, closing: real): real
    requires !p.IsFlat()
  {
    p.openCosts * (closing / Magnitude(p.quantity))
  }

  function ExitShare(fill: Fill, exitCost: real, closing: real): real {
    if fill.quantity != 0.0 then exitCost * (closing / fill.quantity) else 0.0
  }

  function Gross(p: Position, fill: Fill, closing: real): real {
    (fill.fillPrice - p.averagePrice) * closing * p.Sign() as real
  }

  function Ratio(net: real, entryNotional: real): real {
    if entryNotional != 0.0 then net / entryNotional else 0.0
  }

  function ClosingTrade(p: Position, fill: Fill, closing: real, exitCost: real, bar: nat): Trade
    requires !p.IsFlat()
  {
    var gross := Gross(p, fill, closing);
    var costs := EntryShare(p, closing) + ExitShare(fill, exitCost, closing);
    var net := gross - costs;
    var span := bar - p.entryBar;
    Trade(p.Sign(), closing, p.entryBar, p.averagePrice, fill.bar, fill.fillPrice, gross, costs, net,
          Ratio(net, Product(p.averagePrice, closing)), if span > 0 then span else 0, p.entryReason, fill.reason)
  }

  function Closed(p: Position, fill: Fill, closing: real, exitCost: real, bar: nat): Position
    requires !p.IsFlat()
  {
    var rest := p.(
      realizedPnl := p.realizedPnl + ClosingTrade(p, fill, closing, exitCost, bar).pnl,
      openCosts := p.openCosts - EntryShare(p, closing),
      quantity := p.quantity + p.Sign() as real * -closing);
    if Magnitude(rest.quantity) < 0.000000000001 then
      rest.(quantity := 0.0, averagePrice := 0.0, entryReason := "", openCosts := 0.0)
    else
      rest
  }

  datatype Outcome = Outcome(position: Position, trades: seq<Trade>)

  function ReversalShare(cost: real, remaining: real, incoming: real): real
    requires incoming != 0.0
  {
    cost * (remaining / incoming)
  }

  function Filled(p: Position, fill: Fill, bar: nat): Outcome
    requires fill.quantity >= 0.0 || p.quantity + fill.side.Sign() as real * fill.quantity != 0.0
  {
    var signed := fill.side.Sign() as real * fill.quantity;
    var cost := fill.TotalCost();
    if p.IsFlat() then
      Outcome(Opened(p, fill, signed, cost, bar), [])
    else if p.Sign() == fill.side.Sign() then
      Outcome(Added(p, fill, signed, cost), [])
    else
      var incoming := Magnitude(signed);
      var held := Magnitude(p.quantity);
      var closing := if incoming < held then incoming else held;
      var trade := ClosingTrade(p, fill, closing, cost, bar);
      var rest := Closed(p, fill, closing, cost, bar);
      var remaining := incoming - closing;
      if remaining > 0.0 then
        Outcome(Opened(rest, fill, fill.side.Sign() as real * remaining, ReversalShare(cost, remaining, incoming), bar), [trade])
      else
        Outcome(rest, [trade])
  }

  function ApplyFill(l: Portfolio, fill: Fill, bar: nat): Portfolio
    requires fill.quantity >= 0.0 || l.position.quantity + fill.side.Sign() as real * fill.quantity != 0.0
  {
    var outcome := Filled(l.position, fill, bar);
    l.(cash := l.cash + fill.CashDelta(),
       totalCommission := l.totalCommission + fill.commission,
       totalSlippage := l.totalSlippage + fill.SlippageCost(),
       totalTradedNotional := l.totalTradedNotional + Magnitude(Product(fill.quantity, fill.fillPrice)),
       position := outcome.position,
       trades := l.trades + outcome.trades)
  }

  predicate CanAfford(cash: real, side: Side, quantity: real, fillPrice: real, commission: real) {
    if side == Events.Sell then true else cash >= Product(quantity, fillPrice) + commission
  }

  function MaxAffordable(cash: real, fillPrice: real, commissionRate: real): real {
    if fillPrice <= 0.0 then 0.0
    else
      var perUnit := Product(fillPrice, 1.0 + commissionRate);
      if !(perUnit > 0.0) then 0.0 else Truncate(cash / perUnit) as real
  }
}
