/** The trade log and the position book, fill by fill, in the numbers of the fills themselves. */
module TradeRecords {
  import opened Prelude
  import opened RealMath
  import opened Events
  import opened Statistics
  import opened Ledger
  import opened FillLaws
  import opened Conservation

  /** What a fill costs: its commission, and the slippage off its reference price. */
  function CostOf(f: FillEvent): real {
    f.commission + Abs(f.fillPrice - f.referencePrice) * f.quantity
  }

  /** The position was entered by this fill, on this bar. */
  ghost predicate EnteredBy(p: Position, f: FillEvent, bar: int) {
    && p.averagePrice == f.fillPrice && p.entryTimestamp == Some(f.timestamp) && p.entryBar == bar && p.entryReason == f.reason
  }

  /** The same entry as before. */
  ghost predicate KeepsEntry(p: Position, p': Position) {
    p'.entryTimestamp == p.entryTimestamp && p'.entryBar == p.entryBar && p'.entryReason == p.entryReason
  }

  /** A fill from flat enters. */
  lemma FillFromFlat(p: Position, f: FillEvent, bar: int)
    requires p.IsFlat() && f.quantity > 0.0
    ensures var o := Filled(p, f, bar);
            && o.trades == [] && EnteredBy(o.position, f, bar)
            && o.position.quantity == (if f.side == Buy then f.quantity else -f.quantity)
            && o.position.openCosts == CostOf(f) && o.position.realizedPnl == p.realizedPnl
  {
  }

  /** A fill on the side that is held adds: entry data stay, the price is averaged by quantity, the cost is attached. */
  lemma FillAdds(p: Position, f: FillEvent, bar: int)
    requires f.quantity > 0.0 && (if f.side == Buy then p.quantity > 0.0 else p.quantity < 0.0)
    ensures var o, s := Filled(p, f, bar), if f.side == Buy then f.quantity else -f.quantity;
            && o.trades == [] && KeepsEntry(p, o.position)
            && o.position.quantity == p.quantity + s
            && o.position.quantity * o.position.averagePrice == p.quantity * p.averagePrice + s * f.fillPrice
            && o.position.openCosts == p.openCosts + CostOf(f) && o.position.realizedPnl == p.realizedPnl
  {
    var s := if f.side == Buy then f.quantity else -f.quantity;
    AddedBook(p.quantity, p.averagePrice, s, f.fillPrice);
  }

  /** The part of a cost that c out of k units bear. */
  ghost predicate Bears(part: real, cost: real, c: real, k: real) {
    Times(part, k) == Times(cost, c)
  }

  /** The trade for closing c units of p with fill f. */
  ghost predicate Records(t: Trade, p: Position, f: FillEvent, bar: int, c: real) {
    && t.symbol == p.symbol && t.direction == (if p.quantity > 0.0 then Long else Short) && t.quantity == c
    && t.entryTimestamp == (if p.entryTimestamp.Some? then p.entryTimestamp.value else f.timestamp)
    && t.entryPrice == p.averagePrice && t.entryReason == p.entryReason
    && t.exitTimestamp == f.timestamp && t.exitPrice == f.fillPrice && t.exitReason == f.reason
    && t.grossPnl == (if p.quantity > 0.0 then Times(f.fillPrice - p.averagePrice, c) else Times(p.averagePrice - f.fillPrice, c))
    && (exists entry: real, exit: real ::
          t.costs == entry + exit && Bears(entry, p.openCosts, c, Abs(p.quantity)) && Bears(exit, CostOf(f), c, f.quantity))
    && t.pnl == t.grossPnl - t.costs
    && (if Times(p.averagePrice, c) == 0.0 then t.returnPct == 0.0 else Times(t.returnPct, Times(p.averagePrice, c)) == t.pnl)
    && t.barsHeld == (if bar > p.entryBar then bar - p.entryBar else 0)
  }

  lemma ShareBears(cost: real, c: real, k: real)
    requires k != 0.0
    ensures Bears(Share(cost, c, k), cost, c, k)
  {
    var q := c / k;
    DivMul(c, k);
    assert cost * q * k == cost * (q * k);
  }

  lemma ReturnMeans(net: real, notional: real)
    ensures if notional == 0.0 then ReturnPct(net, notional) == 0.0 else Times(ReturnPct(net, notional), notional) == net
  {
    if notional != 0.0 {
      DivMul(net, notional);
    }
  }

  lemma GrossBySide(p: Position, f: FillEvent, c: real)
    requires !p.IsFlat()
    ensures GrossResult(p, f, c) ==
            if p.quantity > 0.0 then Times(f.fillPrice - p.averagePrice, c) else Times(p.averagePrice - f.fillPrice, c)
  {
    var d := f.fillPrice - p.averagePrice;
    if p.quantity > 0.0 {
      assert d * c * 1.0 == d * c;
    } else {
      assert d * c * -1.0 == (-d) * c;
    }
  }

  lemma ClosingRecords(p: Position, f: FillEvent, c: real, bar: int)
    requires !p.IsFlat() && f.quantity > 0.0
    ensures Records(ClosingTrade(p, f, c, CostOf(f), bar), p, f, bar, c)
  {
    hide Share, ReturnPct, GrossResult, Times, Bears;
    ShareBears(p.openCosts, c, Abs(p.quantity));
    ShareBears(CostOf(f), c, f.quantity);
    GrossBySide(p, f, c);
    var t := ClosingTrade(p, f, c, CostOf(f), bar);
    assert EntryNotional(p.averagePrice, c) == Times(p.averagePrice, c) by {
      NotionalIsProduct(p.averagePrice, c);
    }
    ReturnMeans(t.pnl, Times(p.averagePrice, c));
    hide EntryNotional, CostOf;
  }

  lemma NotionalIsProduct(price: real, c: real)
    ensures EntryNotional(price, c) == Times(price, c)
  {
  }

  /** An opposite fill of no more than is held: one trade, a smaller position that keeps its entry, price and share of the costs. */
  lemma FillReduces(p: Position, f: FillEvent, bar: int)
    requires 0.0 < f.quantity <= Abs(p.quantity) && (if f.side == Buy then p.quantity < 0.0 else p.quantity > 0.0)
    ensures var o, rest := Filled(p, f, bar), Abs(p.quantity) - f.quantity;
            && |o.trades| == 1 && Records(o.trades[0], p, f, bar, f.quantity)
            && o.position.realizedPnl == p.realizedPnl + o.trades[0].pnl
            && (rest < 0.000000000001 ==>
                  && o.position.quantity == 0.0 && o.position.averagePrice == 0.0 && o.position.openCosts == 0.0
                  && o.position.entryTimestamp == None && o.position.entryReason == "")
            && (rest >= 0.000000000001 ==>
                  && o.position.quantity == (if p.quantity > 0.0 then rest else -rest)
                  && o.position.averagePrice == p.averagePrice && KeepsEntry(p, o.position)
                  && Bears(p.openCosts - o.position.openCosts, p.openCosts, f.quantity, Abs(p.quantity)))
  {
    hide Records, Share, ReturnPct, GrossResult, EntryNotional, Times, Bears;
    ClosingRecords(p, f, f.quantity, bar);
    ShareBears(p.openCosts, f.quantity, Abs(p.quantity));
    SignedSize(f);
    RemainingBySide(p, f);
  }

  /** An opposite fill of more than is held: the whole position is closed, and the rest enters on the other side. */
  lemma FillReverses(p: Position, f: FillEvent, bar: int)
    requires f.quantity > Abs(p.quantity) && (if f.side == Buy then p.quantity < 0.0 else p.quantity > 0.0)
    ensures var o := Filled(p, f, bar);
            && |o.trades| == 1 && Records(o.trades[0], p, f, bar, Abs(p.quantity))
            && o.position.realizedPnl == p.realizedPnl + o.trades[0].pnl
            && EnteredBy(o.position, f, bar)
            && o.position.quantity == p.quantity + (if f.side == Buy then f.quantity else -f.quantity)
            && Bears(o.position.openCosts, CostOf(f), f.quantity - Abs(p.quantity), f.quantity)
  {
    hide Records, Share, ReturnPct, GrossResult, EntryNotional, Times, Bears;
    ClosingRecords(p, f, Abs(p.quantity), bar);
    ShareBears(CostOf(f), f.quantity - Abs(p.quantity), f.quantity);
    SignedSize(f);
    RemainingBySide(p, f);
  }

  /** In and out: the record of a position entered by one fill and left by another of the same quantity. */
  lemma RoundTrip(p: Position, f: FillEvent, bar: int, g: FillEvent, later: int)
    requires p.IsFlat() && f.quantity == g.quantity > 0.0 && f.side != g.side && bar <= later
    ensures var q := f.quantity;
            var o := Filled(Filled(p, f, bar).position, g, later);
            && o.position.quantity == 0.0 && |o.trades| == 1
            && var t := o.trades[0];
            && t.symbol == p.symbol && t.direction == (if f.side == Buy then Long else Short) && t.quantity == q
            && t.entryTimestamp == f.timestamp && t.entryPrice == f.fillPrice && t.entryReason == f.reason
            && t.exitTimestamp == g.timestamp && t.exitPrice == g.fillPrice && t.exitReason == g.reason
            && t.barsHeld == later - bar
            && t.grossPnl == Times(if f.side == Buy then g.fillPrice - f.fillPrice else f.fillPrice - g.fillPrice, q)
            && t.costs == CostOf(f) + CostOf(g)
            && t.pnl == t.grossPnl - CostOf(f) - CostOf(g)
  {
    hide Filled, CostOf, Times, Bears;
    FillFromFlat(p, f, bar);
    var held := Filled(p, f, bar).position;
    EntryKeepsSymbol(p, f, bar);
    FillReduces(held, g, later);
    var t := Filled(held, g, later).trades[0];
    var entry, exit :| t.costs == entry + exit && Bears(entry, held.openCosts, f.quantity, Abs(held.quantity)) &&
                       Bears(exit, CostOf(g), f.quantity, g.quantity);
    BearsAll(entry, CostOf(f), f.quantity);
    BearsAll(exit, CostOf(g), f.quantity);
  }

  lemma EntryKeepsSymbol(p: Position, f: FillEvent, bar: int)
    requires p.IsFlat() && f.quantity > 0.0
    ensures Filled(p, f, bar).position.symbol == p.symbol
  {
  }

  lemma BearsAll(part: real, cost: real, k: real)
    requires k > 0.0 && Bears(part, cost, k, k)
    ensures part == cost
  {
    hide Times;
    TimesCancels(part, cost, k);
    TimesCancels(cost, part, k);
  }

  // ---- running totals

  function SumFills(f: FillEvent -> real, fills: seq<FillEvent>): real {
    if fills == [] then 0.0 else SumFills(f, fills[..|fills| - 1]) + f(fills[|fills| - 1])
  }

  /** What a fill moves in and out of cash, commission included. */
  function Paid(f: FillEvent): real {
    (if f.side == Buy then -(f.quantity * f.fillPrice) else f.quantity * f.fillPrice) - f.commission
  }

  function Slipped(f: FillEvent): real {
    Abs(f.fillPrice - f.referencePrice) * f.quantity
  }

  function Turnover(f: FillEvent): real {
    Abs(f.quantity * f.fillPrice)
  }

  function Charged(f: FillEvent): real {
    f.commission
  }

  lemma TotalsAfterFill(l: Portfolio, f: FillEvent, bar: int)
    requires f.quantity > 0.0
    ensures var l' := ApplyFill(l, f, bar);
            && l'.cash == l.cash + Paid(f) && l'.totalCommission == l.totalCommission + Charged(f)
            && l'.totalSlippage == l.totalSlippage + Slipped(f)
            && l'.totalTradedNotional == l.totalTradedNotional + Turnover(f)
            && l'.initialCash == l.initialCash
  {
    hide Filled;
  }

  /** Cash and the three running totals are sums over the fills, whatever their symbols and order. */
  lemma {:induction false} TotalsOfFills(initialCash: real, fills: seq<FillEvent>, bars: seq<int>)
    requires |fills| == |bars| && PositiveFills(fills)
    ensures var l := ApplyFills(NewPortfolio(initialCash), fills, bars);
            && l.initialCash == initialCash && l.cash == initialCash + SumFills(Paid, fills)
            && l.totalCommission == SumFills(Charged, fills) && l.totalSlippage == SumFills(Slipped, fills)
            && l.totalTradedNotional == SumFills(Turnover, fills)
  {
    hide ApplyFill, Paid, Charged, Slipped, Turnover;
    if fills != [] {
      var n := |fills| - 1;
      TotalsOfFills(initialCash, fills[..n], bars[..n]);
      TotalsAfterFill(ApplyFills(NewPortfolio(initialCash), fills[..n], bars[..n]), fills[n], bars[n]);
    }
  }
}
