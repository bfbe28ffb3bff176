/** The C++ Portfolio class as it is written, proved against module CppLedger. */
module CppPortfolio {
  import opened CppLedger

  class Portfolio {
    const initialCash: real
    var cash: real
    var position: Position
    var trades: seq<Trade>
    var totalCommission: real
    var totalSlippage: real
    var totalTradedNotional: real

    function View(): CppLedger.Portfolio
      reads this
    {
      CppLedger.Portfolio(initialCash, cash, position, trades, totalCommission, totalSlippage, totalTradedNotional)
    }

    constructor (initialCash: real)
      requires initialCash > 0.0
      ensures View() == NewPortfolio(initialCash)
    {
      this.initialCash := initialCash;
      cash, position, trades := initialCash, FLAT_POSITION, [];
      totalCommission, totalSlippage, totalTradedNotional := 0.0, 0.0, 0.0;
    }

    method Open(fill: Fill, signed: real, cost: real, bar: nat)
      modifies this`position
      ensures position == Opened(old(position), fill, signed, cost, bar)
    {
      position := position.(quantity := signed);
      position := position.(averagePrice := fill.fillPrice);
      position := position.(entryBar := bar);
      position := position.(entryReason := fill.reason);
      position := position.(openCosts := cost);
    }

    method Add(fill: Fill, signed: real, cost: real)
      requires position.quantity + signed != 0.0
      modifies this`position
      ensures position == Added(old(position), fill, signed, cost)
    {
      position := position.(averagePrice := BlendedPrice(position, fill, signed));
      position := position.(quantity := position.quantity + signed);
      position := position.(openCosts := position.openCosts + cost);
    }

    method Close(fill: Fill, closing: real, exitCost: real, bar: nat)
      requires !position.IsFlat()
      modifies this`position, this`trades
      ensures position == Closed(old(position), fill, closing, exitCost, bar)
      ensures trades == old(trades) + [ClosingTrade(old(position), fill, closing, exitCost, bar)]
    {
      hide EntryShare, ExitShare, Gross, Ratio, Product;
      ghost var expected := ClosingTrade(position, fill, closing, exitCost, bar);
      var direction := position.Sign();
      var entryShare := EntryShare(position, closing);
      var gross := Gross(position, fill, closing);
      var costs := entryShare + ExitShare(fill, exitCost, closing);
      var net := gross - costs;

      position := position.(realizedPnl := position.realizedPnl + net);
      position := position.(openCosts := position.openCosts - entryShare);

      var span := bar - position.entryBar;
      var trade := Trade(
        direction, closing, position.entryBar, position.averagePrice, fill.bar, fill.fillPrice,
        gross, costs, net, Ratio(net, Product(position.averagePrice, closing)),
        if span > 0 then span else 0, position.entryReason, fill.reason);
      assert trade.pnl == expected.pnl;
      assert trade == expected;
      trades := trades + [trade];

      position := position.(quantity := position.quantity + direction as real * -closing);
      if Magnitude(position.quantity) < 0.000000000001 {
        position := position.(quantity := 0.0, averagePrice := 0.0, entryReason := "", openCosts := 0.0);
      }
    }

    method ApplyFill(fill: Fill, bar: nat)
      requires fill.quantity >= 0.0 || position.quantity + fill.side.Sign() as real * fill.quantity != 0.0
      modifies this
      ensures View() == CppLedger.ApplyFill(old(View()), fill, bar)
    {
      hide CppLedger.ClosingTrade, CppLedger.Closed, Fill.CashDelta, Fill.SlippageCost, Product, ReversalShare, BlendedPrice;
      var signed := fill.side.Sign() as real * fill.quantity;
      cash := cash + fill.CashDelta();
      totalCommission := totalCommission + fill.commission;
      totalSlippage := totalSlippage + fill.SlippageCost();
      totalTradedNotional := totalTradedNotional + Magnitude(Product(fill.quantity, fill.fillPrice));
      var cost := fill.TotalCost();

      if position.IsFlat() {
        Open(fill, signed, cost, bar);
        assert trades == old(trades) + [];
        return;
      }
      if position.Sign() == fill.side.Sign() {
        Add(fill, signed, cost);
        assert trades == old(trades) + [];
        return;
      }
      var incoming := Magnitude(signed);
      var held := Magnitude(position.quantity);
      var closing := if incoming < held then incoming else held;
      Close(fill, closing, cost, bar);

      var remaining := incoming - closing;
      if remaining > 0.0 {
        var reversal := fill.(quantity := remaining, commission := 0.0);
        Open(reversal, fill.side.Sign() as real * remaining, ReversalShare(cost, remaining, incoming), bar);
      }
    }
  }
}
