/** What one fill does to one position: the algebra behind every conservation law. */
module FillLaws {
  import opened Prelude
  import opened RealMath
  import opened Events
  import opened Ledger

  /** The value of a position at its own average price. */
  function BookValue(p: Position): real {
    p.quantity * p.averagePrice
  }

  function OpenCosts(p: Position): real { p.openCosts }

  function RealizedPnl(p: Position): real { p.realizedPnl }

  function GrossPnl(t: Trade): real { t.grossPnl }

  function Costs(t: Trade): real { t.costs }

  function Pnl(t: Trade): real { t.pnl }

  function SumTrades(f: Trade -> real, trades: seq<Trade>): real {
    if trades == [] then 0.0 else SumTrades(f, trades[..|trades| - 1]) + f(trades[|trades| - 1])
  }

  lemma {:induction false} SumTradesConcat(f: Trade -> real, a: seq<Trade>, b: seq<Trade>)
    ensures SumTrades(f, a + b) == SumTrades(f, a) + SumTrades(f, b)
    decreases |b|
  {
    if b == [] {
      assert a + b == a;
    } else {
      SumTradesConcat(f, a, b[..|b| - 1]);
      assert (a + b)[..|a + b| - 1] == a + b[..|b| - 1];
    }
  }

  lemma SumOfOne(f: Trade -> real, t: Trade)
    ensures SumTrades(f, [t]) == f(t)
  {
    assert [t][..0] == [];
  }

  /** Flat positions carry nothing; open ones know when they were entered. */
  predicate Tidy(p: Position) {
    if p.IsFlat() then p.averagePrice == 0.0 && p.openCosts == 0.0 && p.entryTimestamp == None
    else p.entryTimestamp.Some?
  }

  predicate Reduces(p: Position, fill: FillEvent) {
    !p.IsFlat() && p.Sign() != fill.side.Sign()
  }

  /** The quantity that the snap to flat forgets: zero unless a reduction leaves a speck. */
  function Residue(p: Position, fill: FillEvent): real {
    if Reduces(p, fill) && Abs(Remaining(p, ClosingQuantity(p, fill))) < SNAP
    then Remaining(p, ClosingQuantity(p, fill))
    else 0.0
  }

  /** The book value that goes with it. */
  function BookLoss(p: Position, fill: FillEvent): real {
    Residue(p, fill) * p.averagePrice
  }

  /** The entry costs that go with it. */
  function CostResidue(p: Position, fill: FillEvent): real {
    if Reduces(p, fill) then Share(p.openCosts, Abs(Residue(p, fill)), Abs(p.quantity)) else 0.0
  }

  lemma SignedSize(fill: FillEvent)
    requires fill.quantity >= 0.0
    ensures Abs(fill.SignedQuantity()) == fill.quantity
    ensures fill.SignedQuantity() == if fill.side == Buy then fill.quantity else -fill.quantity
  {
  }

  /** A reduction, spelled out by the side that is held. */
  lemma RemainingBySide(p: Position, fill: FillEvent)
    requires fill.quantity >= 0.0 && Reduces(p, fill)
    ensures var c := ClosingQuantity(p, fill); 0.0 <= c <= fill.quantity && c <= Abs(p.quantity)
    ensures Remaining(p, ClosingQuantity(p, fill)) ==
            if p.quantity > 0.0 then p.quantity - ClosingQuantity(p, fill) else p.quantity + ClosingQuantity(p, fill)
    ensures fill.quantity >= Abs(p.quantity) ==> Remaining(p, ClosingQuantity(p, fill)) == 0.0
  {
    SignedSize(fill);
  }

  /** Positions move by exactly the signed quantity of the fill, less what the snap forgets. */
  lemma QuantityMoves(p: Position, fill: FillEvent, bar: int)
    requires fill.quantity >= 0.0
    ensures Filled(p, fill, bar).position.quantity == p.quantity + fill.SignedQuantity() - Residue(p, fill)
    ensures Abs(Residue(p, fill)) < SNAP
  {
    SignedSize(fill);
    if Reduces(p, fill) {
      RemainingBySide(p, fill);
    }
    hide BlendedPrice, Share, GrossResult, ReturnPct, FillEvent.TotalCost, FillEvent.SlippageCost, FillEvent.SignedQuantity;
  }

  lemma WholeFillsLeaveNoResidue(p: Position, fill: FillEvent, bar: int)
    requires fill.quantity >= 0.0 && Whole(p.quantity) && Whole(fill.quantity)
    ensures Residue(p, fill) == 0.0
    ensures Filled(p, fill, bar).position.quantity == p.quantity + fill.SignedQuantity()
    ensures Whole(Filled(p, fill, bar).position.quantity)
  {
    hide Filled, FillEvent.SignedQuantity;
    SignedSize(fill);
    WholeAbs(fill.quantity);
    WholeSum(p.quantity, fill.SignedQuantity());
    QuantityMoves(p, fill, bar);
    if Reduces(p, fill) {
      RemainingBySide(p, fill);
      WholeAbs(p.quantity);
      WholeSum(p.quantity, ClosingQuantity(p, fill));
      if Residue(p, fill) != 0.0 {
        WholeBelowOne(Residue(p, fill));
      }
    }
  }

  /** The quantities of a reduction, in terms of the direction d that was held. */
  lemma ReductionQuantities(p: Position, fill: FillEvent, bar: int)
    requires fill.quantity > 0.0 && Reduces(p, fill)
    ensures var o, c, d := Filled(p, fill, bar), ClosingQuantity(p, fill), p.Sign() as real;
            && |o.trades| == 1
            && (d == 1.0 || d == -1.0)
            && o.position.quantity == p.quantity + fill.SignedQuantity() - Residue(p, fill)
            && (fill.quantity > Abs(p.quantity) ==>
                  c == Abs(p.quantity) && p.quantity == d * c && Residue(p, fill) == 0.0)
            && (fill.quantity <= Abs(p.quantity) ==> c == fill.quantity && fill.SignedQuantity() == -(d * c))
            && (fill.quantity <= Abs(p.quantity) && o.position.quantity == 0.0 ==>
                  Abs(Residue(p, fill)) == Abs(p.quantity) - c)
            && (fill.quantity <= Abs(p.quantity) && o.position.quantity != 0.0 ==> Residue(p, fill) == 0.0)
  {
    hide BlendedPrice, Share, GrossResult, ReturnPct, FillEvent.TotalCost, FillEvent.SlippageCost;
    SignedSize(fill);
    RemainingBySide(p, fill);
    QuantityMoves(p, fill, bar);
  }

  /** The prices of a reduction: reversed positions take the fill's price, smaller ones keep theirs. */
  lemma ReductionPrices(p: Position, fill: FillEvent, bar: int)
    requires fill.quantity > 0.0 && Reduces(p, fill)
    ensures var o := Filled(p, fill, bar);
            && |o.trades| == 1
            && o.trades[0].grossPnl == GrossResult(p, fill, ClosingQuantity(p, fill))
            && (fill.quantity > Abs(p.quantity) ==> o.position.averagePrice == fill.fillPrice)
            && (fill.quantity <= Abs(p.quantity) && o.position.quantity != 0.0 ==>
                  o.position.averagePrice == p.averagePrice)
  {
    hide BlendedPrice, Share, GrossResult, ReturnPct, FillEvent.TotalCost, FillEvent.SlippageCost;
    SignedSize(fill);
    RemainingBySide(p, fill);
  }

  /** The costs of a reduction: shared between the closed part and what stays or reopens. */
  lemma ReductionCosts(p: Position, fill: FillEvent, bar: int)
    requires fill.quantity > 0.0 && Reduces(p, fill)
    ensures var o, c, q, k := Filled(p, fill, bar), ClosingQuantity(p, fill), Abs(p.quantity), fill.quantity;
            && |o.trades| == 1
            && o.trades[0].costs == Share(p.openCosts, c, q) + Share(fill.TotalCost(), c, k)
            && (k > q ==> o.position.openCosts == Share(fill.TotalCost(), k - c, k))
            && (k <= q && o.position.quantity == 0.0 ==> o.position.openCosts == 0.0)
            && (k <= q && o.position.quantity != 0.0 ==>
                  o.position.openCosts == p.openCosts - Share(p.openCosts, c, q))
  {
    hide BlendedPrice, Share, GrossResult, ReturnPct, FillEvent.TotalCost, FillEvent.SlippageCost;
    SignedSize(fill);
    RemainingBySide(p, fill);
  }

  lemma AddedBook(q: real, a: real, s: real, f: real)
    requires q + s != 0.0
    ensures (q + s) * ((a * q + f * s) / (q + s)) == q * a + s * f
  {
  }

  lemma GrownBook(p: Position, fill: FillEvent, bar: int)
    requires fill.quantity >= 0.0 && !Reduces(p, fill)
    ensures var o := Filled(p, fill, bar);
            o.trades == [] && BookValue(o.position) == BookValue(p) + fill.SignedQuantity() * fill.fillPrice
  {
    if !p.IsFlat() {
      SignedSize(fill);
      AddedBook(p.quantity, p.averagePrice, fill.SignedQuantity(), fill.fillPrice);
    }
  }

  lemma ReductionBalances(q: real, a: real, s: real, f: real, c: real, d: real, r: real, q': real, a': real)
    requires (d == 1.0 || d == -1.0) && q' == q + s - r
    requires || (q == d * c && r == 0.0 && a' == f)
             || (s == -(d * c) && (q' == 0.0 || a' == a))
    ensures q' * a' == q * a + s * f + (f - a) * c * d - r * a
  {
    if q == d * c && r == 0.0 && a' == f {
      assert (f - a) * c * d == (f - a) * q;
      assert q' * a' == (q + s) * f;
    } else {
      assert (f - a) * c * d == -((f - a) * s);
      assert q' * a' == (q + s - r) * a;
    }
  }

  lemma ReducedBookValue(p: Position, fill: FillEvent, c: real, s: real, r: real, rest: Position)
    requires !p.IsFlat() && rest.quantity == p.quantity + s - r
    requires || (p.quantity == p.Sign() as real * c && r == 0.0 && rest.averagePrice == fill.fillPrice)
             || (s == -(p.Sign() as real * c) && (rest.quantity == 0.0 || rest.averagePrice == p.averagePrice))
    ensures BookValue(rest) == BookValue(p) + s * fill.fillPrice + GrossResult(p, fill, c) - r * p.averagePrice
  {
    ReductionBalances(p.quantity, p.averagePrice, s, fill.fillPrice, c, p.Sign() as real, r,
                      rest.quantity, rest.averagePrice);
  }

  lemma ReducedBook(p: Position, fill: FillEvent, bar: int)
    requires fill.quantity > 0.0 && Reduces(p, fill)
    ensures var o := Filled(p, fill, bar);
            |o.trades| == 1 &&
            BookValue(o.position) == BookValue(p) + fill.SignedQuantity() * fill.fillPrice
                                     + o.trades[0].grossPnl - BookLoss(p, fill)
  {
    hide Filled, Residue, ClosingQuantity, Abs, Position.Sign, FillEvent.SignedQuantity, BookValue, GrossResult;
    ReductionQuantities(p, fill, bar);
    ReductionPrices(p, fill, bar);
    ReducedBookValue(p, fill, ClosingQuantity(p, fill), fill.SignedQuantity(), Residue(p, fill),
                     Filled(p, fill, bar).position);
  }

  /** Book value changes by what was paid, plus the gross result realized, less the residue's book value. */
  lemma BookMoves(p: Position, fill: FillEvent, bar: int)
    requires fill.quantity > 0.0
    ensures var o := Filled(p, fill, bar);
            BookValue(o.position) == BookValue(p) + fill.SignedQuantity() * fill.fillPrice
                                     + SumTrades(GrossPnl, o.trades) - BookLoss(p, fill)
  {
    if Reduces(p, fill) {
      ReducedBook(p, fill, bar);
    } else {
      GrownBook(p, fill, bar);
      assert Residue(p, fill) == 0.0 && BookLoss(p, fill) == 0.0;
    }
    hide Filled, BookValue, BookLoss, Residue;
    var o := Filled(p, fill, bar);
    if Reduces(p, fill) {
      SumOfOne(GrossPnl, o.trades[0]);
      assert o.trades == [o.trades[0]];
    }
  }

  lemma SharesAddUp(cost: real, c: real, k: real)
    requires k > 0.0
    ensures Share(cost, c, k) + Share(cost, k - c, k) == cost
    ensures c == k ==> Share(cost, c, k) == cost
    ensures Share(cost, 0.0, k) == 0.0
  {
    assert c / k + (k - c) / k == 1.0;
    assert c == k ==> c / k == 1.0;
    assert cost * (c / k) + cost * ((k - c) / k) == cost * (c / k + (k - c) / k);
  }

  lemma ReducedCosts(p: Position, fill: FillEvent, bar: int)
    requires fill.quantity > 0.0 && Reduces(p, fill)
    ensures var o := Filled(p, fill, bar);
            |o.trades| == 1 &&
            o.position.openCosts + o.trades[0].costs == p.openCosts + fill.TotalCost() - CostResidue(p, fill)
  {
    ReductionQuantities(p, fill, bar);
    ReductionCosts(p, fill, bar);
    SharesAddUp(p.openCosts, ClosingQuantity(p, fill), Abs(p.quantity));
    SharesAddUp(fill.TotalCost(), ClosingQuantity(p, fill), fill.quantity);
    hide Filled, Share, Residue, ClosingQuantity, FillEvent.TotalCost, FillEvent.SignedQuantity;
  }

  /** Entry costs plus this fill's cost are either still attached to the position or booked on a trade. */
  lemma CostsMove(p: Position, fill: FillEvent, bar: int)
    requires fill.quantity > 0.0 && (p.IsFlat() ==> p.openCosts == 0.0)
    ensures var o := Filled(p, fill, bar);
            o.position.openCosts + SumTrades(Costs, o.trades) ==
            p.openCosts + fill.TotalCost() - CostResidue(p, fill)
  {
    hide BlendedPrice, Share, GrossResult, ReturnPct, FillEvent.TotalCost;
    var o := Filled(p, fill, bar);
    if Reduces(p, fill) {
      ReducedCosts(p, fill, bar);
      SumOfOne(Costs, o.trades[0]);
      assert o.trades == [o.trades[0]];
    }
  }

  /** Realized PnL is the sum of the net results of the recorded trades. */
  lemma RealizedIsTradePnl(p: Position, fill: FillEvent, bar: int)
    requires fill.quantity >= 0.0
    ensures var o := Filled(p, fill, bar);
            o.position.realizedPnl == p.realizedPnl + SumTrades(Pnl, o.trades)
  {
    hide BlendedPrice, Share, GrossResult, ReturnPct, FillEvent.TotalCost;
    var o := Filled(p, fill, bar);
    if o.trades != [] {
      SumOfOne(Pnl, o.trades[0]);
    }
  }

  /** Every recorded trade is net of its costs. */
  lemma TradeIsNet(p: Position, fill: FillEvent, bar: int)
    requires fill.quantity > 0.0
    ensures forall t :: t in Filled(p, fill, bar).trades ==> t.pnl == t.grossPnl - t.costs
  {
    hide BlendedPrice, Share, GrossResult, ReturnPct, FillEvent.TotalCost;
  }

  lemma TidyKept(p: Position, fill: FillEvent, bar: int)
    requires fill.quantity > 0.0 && Tidy(p)
    ensures Tidy(Filled(p, fill, bar).position)
    ensures Filled(p, fill, bar).position.symbol == p.symbol
  {
    SignedSize(fill);
    if Reduces(p, fill) {
      RemainingBySide(p, fill);
    }
    hide BlendedPrice, Share, GrossResult, ReturnPct, FillEvent.TotalCost;
  }
}
