/** portfolio.py as it is written: objects updated in place by fills, proved against module Ledger. */
module PyPortfolio {
  import opened Prelude
  import opened RealMath
  import opened Events
  import Ledger

  class PositionState {
    const symbol: string
    var quantity: real
    var averagePrice: real
    var realizedPnl: real
    var entryTimestamp: Option<Timestamp>
    var entryBar: int
    var entryReason: string
    var openCosts: real

    constructor (symbol: string)
      ensures View() == Ledger.EmptyPosition(symbol)
    {
      this.symbol := symbol;
      quantity, averagePrice, realizedPnl := 0.0, 0.0, 0.0;
      entryTimestamp, entryBar, entryReason, openCosts := None, 0, "", 0.0;
    }

    function View(): (p: Ledger.Position)
      reads this
      ensures p.symbol == symbol
    {
      Ledger.Position(symbol, quantity, averagePrice, realizedPnl, entryTimestamp, entryBar, entryReason, openCosts)
    }

    function Sign(): int
      reads this
    {
      if quantity > 0.0 then 1 else if quantity < 0.0 then -1 else 0
    }
  }

  lemma TouchTwice(l: Ledger.Portfolio, fill: FillEvent, bar: int)
    requires fill.quantity >= 0.0 || l.PositionOf(fill.symbol).quantity + fill.SignedQuantity() != 0.0
    ensures Ledger.ApplyFill(l.Touched(fill.symbol), fill, bar) == Ledger.ApplyFill(l, fill, bar)
  {
  }

  /** A fill of a symbol the dictionary already holds, field by field. */
  lemma AppliedListed(l: Ledger.Portfolio, l': Ledger.Portfolio, fill: FillEvent, bar: int)
    requires fill.symbol in l.positions
    requires fill.quantity >= 0.0 || l.positions[fill.symbol].quantity + fill.SignedQuantity() != 0.0
    requires l'.initialCash == l.initialCash && l'.keys == l.keys
    requires l'.cash == l.cash + fill.CashDelta()
    requires l'.totalCommission == l.totalCommission + fill.commission
    requires l'.totalSlippage == l.totalSlippage + fill.SlippageCost()
    requires l'.totalTradedNotional == l.totalTradedNotional + Abs(Notional(fill.quantity, fill.fillPrice))
    requires var o := Ledger.Filled(l.positions[fill.symbol], fill, bar);
             l'.positions == l.positions[fill.symbol := o.position] && l'.trades == l.trades + o.trades
    ensures l' == Ledger.ApplyFill(l, fill, bar)
  {
    hide Ledger.Filled, FillEvent.CashDelta, FillEvent.SlippageCost, Notional;
  }

  class Portfolio {
    const initialCash: real
    var cash: real
    var keys: seq<string>                        // the dictionary's insertion order
    var positions: map<string, PositionState>
    var trades: seq<Ledger.Trade>
    var totalCommission: real
    var totalSlippage: real
    var totalTradedNotional: real

    ghost predicate Valid()
      reads this`keys, this`positions, positions.Values
    {
      && (forall i, j :: 0 <= i < j < |keys| ==> keys[i] != keys[j])
      && (forall s :: s in keys <==> s in positions)
      && (forall s :: s in positions ==> positions[s].symbol == s)
    }

    ghost function Views(): map<string, Ledger.Position>
      reads this`positions, positions.Values
    {
      map s | s in positions :: positions[s].View()
    }

    ghost function View(): Ledger.Portfolio
      reads this, positions.Values
    {
      Ledger.Portfolio(initialCash, cash, keys, Views(), trades, totalCommission, totalSlippage, totalTradedNotional)
    }

    constructor (initialCash: real)
      requires initialCash > 0.0
      ensures Valid() && View() == Ledger.NewPortfolio(initialCash)
    {
      this.initialCash := initialCash;
      cash, keys, positions, trades := initialCash, [], map[], [];
      totalCommission, totalSlippage, totalTradedNotional := 0.0, 0.0, 0.0;
    }

    /** position(symbol): the existing state, or a flat one entered into the dictionary. */
    method PositionOf(symbol: string) returns (p: PositionState)
      requires Valid()
      modifies this`keys, this`positions
      ensures Valid()
      ensures symbol in positions && p == positions[symbol]
      ensures View() == old(View()).Touched(symbol) && p.View() == old(View()).PositionOf(symbol)
      ensures forall s :: s in old(positions) ==> s in positions && positions[s] == old(positions)[s]
      ensures fresh(positions.Values - old(positions).Values)
    {
      if symbol !in positions {
        var flat := new PositionState(symbol);
        keys := keys + [symbol];
        positions := positions[symbol := flat];
        assert View().positions == old(View()).positions[symbol := Ledger.EmptyPosition(symbol)];
      } else {
        assert View() == old(View());
      }
      p := positions[symbol];
    }

    method Open(position: PositionState, fill: FillEvent, signed: real, cost: real, bar: int)
      modifies position
      ensures position.View() == Ledger.Opened(old(position.View()), fill, signed, cost, bar)
    {
      position.quantity := signed;
      position.averagePrice := fill.fillPrice;
      position.entryTimestamp := Some(fill.timestamp);
      position.entryBar := bar;
      position.entryReason := fill.reason;
      position.openCosts := cost;
    }

    method Add(position: PositionState, fill: FillEvent, signed: real, cost: real)
      requires position.quantity + signed != 0.0
      modifies position
      ensures position.View() == Ledger.Added(old(position.View()), fill, signed, cost)
    {
      var newQuantity := position.quantity + signed;
      position.averagePrice := (position.averagePrice * position.quantity + fill.fillPrice * signed) / newQuantity;
      position.quantity := newQuantity;
      position.openCosts := position.openCosts + cost;
    }

    method Close(position: PositionState, fill: FillEvent, closing: real, exitCost: real, bar: int)
      requires position.quantity != 0.0
      modifies this`trades, position
      ensures position.View() == Ledger.Closed(old(position.View()), fill, closing, exitCost, bar)
      ensures trades == old(trades) + [Ledger.ClosingTrade(old(position.View()), fill, closing, exitCost, bar)]
    {
      hide Ledger.Share, Ledger.GrossResult, Ledger.EntryNotional, Ledger.ReturnPct;
      ghost var before := position.View();
      ghost var expected := Ledger.ClosingTrade(before, fill, closing, exitCost, bar);
      var direction := position.Sign();
      var entryShare := Ledger.Share(position.openCosts, closing, Abs(position.quantity));
      var exitShare := Ledger.Share(exitCost, closing, fill.quantity);

      var gross := Ledger.GrossResult(position.View(), fill, closing);
      var costs := entryShare + exitShare;
      var net := gross - costs;

      position.realizedPnl := position.realizedPnl + net;
      position.openCosts := position.openCosts - entryShare;

      var entryNotional := Ledger.EntryNotional(position.averagePrice, closing);
      trades := trades + [Ledger.Trade(
        position.symbol, if direction > 0 then Ledger.Long else Ledger.Short, closing,
        if position.entryTimestamp.Some? then position.entryTimestamp.value else fill.timestamp,
        position.averagePrice, fill.timestamp, fill.fillPrice,
        gross, costs, net, Ledger.ReturnPct(net, entryNotional),
        if bar - position.entryBar > 0 then bar - position.entryBar else 0,
        position.entryReason, fill.reason)];
      assert expected.pnl == net;
      assert trades[|trades| - 1] == expected;

      position.quantity := position.quantity + direction as real * -closing;
      if Abs(position.quantity) < Ledger.SNAP {
        position.quantity := 0.0;
        position.averagePrice := 0.0;
        position.entryTimestamp := None;
        position.entryReason := "";
        position.openCosts := 0.0;
      }
    }

    /** Open, add to, reduce or reverse one position; every other position is left alone. */
    method FillPosition(position: PositionState, fill: FillEvent, bar: int)
      requires fill.quantity >= 0.0 || position.quantity + fill.SignedQuantity() != 0.0
      modifies this`trades, position
      ensures position.View() == Ledger.Filled(old(position.View()), fill, bar).position
      ensures trades == old(trades) + Ledger.Filled(old(position.View()), fill, bar).trades
    {
      hide Ledger.ClosingTrade, Ledger.Closed, Ledger.Share, FillEvent.TotalCost;
      var signed := fill.side.Sign() as real * fill.quantity;
      var cost := fill.TotalCost();
      if position.quantity == 0.0 {
        Open(position, fill, signed, cost, bar);
        return;
      }
      if position.Sign() == fill.side.Sign() {
        Add(position, fill, signed, cost);
        return;
      }
      var closing := Min(Abs(signed), Abs(position.quantity));
      Close(position, fill, closing, cost, bar);
      var remaining := Abs(signed) - closing;
      if remaining > 0.0 {
        var openingCost := Ledger.Share(cost, remaining, Abs(signed));
        var reversal := fill.(quantity := remaining, commission := 0.0);
        Open(position, reversal, fill.side.Sign() as real * remaining, openingCost, bar);
      }
    }

    /** FillPosition as the dictionary sees it: one entry changes. */
    method FillListed(position: PositionState, fill: FillEvent, bar: int, ghost before: map<string, Ledger.Position>)
      requires Valid() && fill.symbol in positions && position == positions[fill.symbol] && before == Views()
      requires fill.quantity >= 0.0 || position.quantity + fill.SignedQuantity() != 0.0
      modifies this`trades, position
      ensures Valid()
      ensures Views() == before[fill.symbol := Ledger.Filled(before[fill.symbol], fill, bar).position]
      ensures trades == old(trades) + Ledger.Filled(before[fill.symbol], fill, bar).trades
    {
      hide Ledger.Filled;
      assert forall s :: s in positions && s != fill.symbol ==> positions[s] != position;
      FillPosition(position, fill, bar);
    }

    /** The scalar half of apply_fill. */
    method BookTotals(fill: FillEvent)
      modifies this`cash, this`totalCommission, this`totalSlippage, this`totalTradedNotional
      ensures cash == old(cash) + fill.CashDelta()
      ensures totalCommission == old(totalCommission) + fill.commission
      ensures totalSlippage == old(totalSlippage) + fill.SlippageCost()
      ensures totalTradedNotional == old(totalTradedNotional) + Abs(Notional(fill.quantity, fill.fillPrice))
      ensures Views() == old(Views())
    {
      hide FillEvent.CashDelta, FillEvent.SlippageCost, Notional;
      cash := cash + fill.CashDelta();
      totalCommission := totalCommission + fill.commission;
      totalSlippage := totalSlippage + fill.SlippageCost();
      totalTradedNotional := totalTradedNotional + Abs(Notional(fill.quantity, fill.fillPrice));
    }

    /** Cash and totals, then the position, of a symbol already in the dictionary. */
    method Book(position: PositionState, fill: FillEvent, bar: int)
      requires Valid() && fill.symbol in positions && position == positions[fill.symbol]
      requires fill.quantity >= 0.0 || position.quantity + fill.SignedQuantity() != 0.0
      modifies this`cash, this`totalCommission, this`totalSlippage, this`totalTradedNotional, this`trades, position
      ensures Valid() && View() == Ledger.ApplyFill(old(View()), fill, bar)
    {
      hide Ledger.ApplyFill, Ledger.Filled, FillEvent.CashDelta, Valid;
      ghost var l := View();
      assert fill.symbol in l.positions;
      hide FillEvent.SlippageCost, Notional, Abs, Views;
      BookTotals(fill);
      FillListed(position, fill, bar, l.positions);
      AppliedListed(l, View(), fill, bar);
    }

    method ApplyFill(fill: FillEvent, bar: int)
      requires Valid()
      requires fill.quantity >= 0.0 || View().PositionOf(fill.symbol).quantity + fill.SignedQuantity() != 0.0
      modifies this, positions.Values
      ensures Valid() && View() == Ledger.ApplyFill(old(View()), fill, bar)
      ensures forall s :: s in old(positions) ==> s in positions && positions[s] == old(positions)[s]
      ensures fresh(positions.Values - old(positions).Values)
    {
      hide Ledger.Filled;
      var position := PositionOf(fill.symbol);
      TouchTwice(old(View()), fill, bar);
      hide Ledger.ApplyFill;
      Book(position, fill, bar);
    }

    /** Cash plus the market value of every priced position. */
    method Equity(prices: map<string, real>) returns (equity: real)
      requires Valid()
      ensures equity == Ledger.Equity(View(), prices)
    {
      hide Ledger.Position.MarketValue;
      var sum := 0.0;
      for i := 0 to |keys|
        invariant sum == Ledger.MarketValue(keys[..i], View().positions, prices)
      {
        assert keys[..i + 1][..i] == keys[..i];
        if keys[i] in prices {
          sum := sum + positions[keys[i]].View().MarketValue(prices[keys[i]]);
        }
      }
      assert keys[..|keys|] == keys;
      equity := cash + sum;
    }

    predicate CanAfford(side: Side, quantity: real, fillPrice: real, commission: real)
      reads this
    {
      Ledger.CanAfford(cash, side, quantity, fillPrice, commission)
    }

    function MaxAffordable(fillPrice: real, commissionRate: real): real
      reads this
    {
      Ledger.MaxAffordable(cash, fillPrice, commissionRate)
    }
  }
}
