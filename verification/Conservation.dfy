/** Conservation over any sequence of fills on any number of symbols. */
module Conservation {
  import opened RealMath
  import opened Events
  import opened Ledger
  import opened FillLaws

  ghost predicate Covered(keys: seq<string>, m: map<string, Position>) {
    forall s :: s in keys ==> s in m
  }

  ghost function SumPositions(f: Position -> real, keys: seq<string>, m: map<string, Position>): real
    requires Covered(keys, m)
  {
    if keys == [] then 0.0
    else SumPositions(f, keys[..|keys| - 1], m) + f(m[keys[|keys| - 1]])
  }

  lemma {:induction false} SumUntouched(f: Position -> real, keys: seq<string>, m: map<string, Position>,
                                        s: string, p: Position)
    requires Covered(keys, m) && s !in keys
    ensures SumPositions(f, keys, m[s := p]) == SumPositions(f, keys, m)
  {
    if keys != [] {
      SumUntouched(f, keys[..|keys| - 1], m, s, p);
    }
  }

  lemma {:induction false} SumUpdated(f: Position -> real, keys: seq<string>, m: map<string, Position>,
                                      s: string, p: Position)
    requires Covered(keys, m) && s in keys
    requires forall i, j :: 0 <= i < j < |keys| ==> keys[i] != keys[j]
    ensures SumPositions(f, keys, m[s := p]) == SumPositions(f, keys, m) - f(m[s]) + f(p)
  {
    var init := keys[..|keys| - 1];
    if keys[|keys| - 1] == s {
      SumUntouched(f, init, m, s, p);
    } else {
      SumUpdated(f, init, m, s, p);
    }
  }

  lemma SumTouched(f: Position -> real, l: Portfolio, s: string)
    requires l.Valid() && f(EmptyPosition(s)) == 0.0
    ensures l.Touched(s).Valid()
    ensures SumPositions(f, l.Touched(s).keys, l.Touched(s).positions) == SumPositions(f, l.keys, l.positions)
  {
    if s !in l.positions {
      SumUntouched(f, l.keys, l.positions, s, EmptyPosition(s));
      SumAppend(f, l.keys, l.positions[s := EmptyPosition(s)], s);
    }
  }

  lemma SumAppend(f: Position -> real, keys: seq<string>, m: map<string, Position>, s: string)
    requires Covered(keys, m) && s in m
    ensures SumPositions(f, keys + [s], m) == SumPositions(f, keys, m) + f(m[s])
  {
    assert (keys + [s])[..|keys|] == keys;
  }

  ghost function BookTotal(l: Portfolio): real
    requires l.Valid()
  {
    SumPositions(BookValue, l.keys, l.positions)
  }

  ghost function OpenCostTotal(l: Portfolio): real
    requires l.Valid()
  {
    SumPositions(OpenCosts, l.keys, l.positions)
  }

  ghost function RealizedTotal(l: Portfolio): real
    requires l.Valid()
  {
    SumPositions(RealizedPnl, l.keys, l.positions)
  }

  ghost predicate AllTidy(l: Portfolio) {
    l.Valid() && forall s :: s in l.positions ==> Tidy(l.positions[s])
  }

  lemma ApplyFillKeepsTidy(l: Portfolio, fill: FillEvent, bar: int)
    requires AllTidy(l) && fill.quantity > 0.0
    ensures AllTidy(ApplyFill(l, fill, bar))
  {
    var t := l.Touched(fill.symbol);
    TidyKept(t.positions[fill.symbol], fill, bar);
  }

  lemma EmptyIsWorthless(s: string)
    ensures BookValue(EmptyPosition(s)) == OpenCosts(EmptyPosition(s)) == RealizedPnl(EmptyPosition(s)) == 0.0
  {
  }

  /** A sum over positions changes only by the filled symbol's term. */
  lemma SumAfterFill(f: Position -> real, l: Portfolio, fill: FillEvent, bar: int)
    requires l.Valid() && fill.quantity > 0.0 && f(EmptyPosition(fill.symbol)) == 0.0
    requires ApplyFill(l, fill, bar).Valid()
    ensures var l', p := ApplyFill(l, fill, bar), l.PositionOf(fill.symbol);
            SumPositions(f, l'.keys, l'.positions) ==
            SumPositions(f, l.keys, l.positions) - f(p) + f(Filled(p, fill, bar).position)
  {
    hide ApplyFill, Filled, SumPositions;
    var s := fill.symbol;
    var t := l.Touched(s);
    AppliedBook(l, fill, bar);
    SumTouched(f, l, s);
    SumUpdated(f, t.keys, t.positions, s, Filled(t.positions[s], fill, bar).position);
  }

  lemma AppliedBook(l: Portfolio, fill: FillEvent, bar: int)
    requires fill.quantity > 0.0
    ensures var l', t := ApplyFill(l, fill, bar), l.Touched(fill.symbol);
            && fill.symbol in t.positions && t.positions[fill.symbol] == l.PositionOf(fill.symbol)
            && l'.keys == t.keys
            && l'.positions == t.positions[fill.symbol := Filled(l.PositionOf(fill.symbol), fill, bar).position]
  {
    hide Filled, FillEvent.CashDelta, FillEvent.SlippageCost, Notional;
  }

  /** What one fill does to the scalar fields of the portfolio. */
  lemma FieldsAfterFill(l: Portfolio, fill: FillEvent, bar: int)
    requires fill.quantity > 0.0
    ensures var l', o := ApplyFill(l, fill, bar), Filled(l.PositionOf(fill.symbol), fill, bar);
            && l'.initialCash == l.initialCash
            && l'.trades == l.trades + o.trades
            && l'.cash + fill.SignedQuantity() * fill.fillPrice + fill.commission == l.cash
            && l'.totalCommission == l.totalCommission + fill.commission
            && l'.totalCommission + l'.totalSlippage == l.totalCommission + l.totalSlippage + fill.TotalCost()
  {
    hide Filled;
    CashDeltaSplit(fill);
  }

  /** One fill moves cash, book value, costs and realized PnL so that every unit is accounted for. */
  lemma ApplyFillBalances(l: Portfolio, fill: FillEvent, bar: int)
    requires AllTidy(l) && fill.quantity > 0.0
    ensures var l', p := ApplyFill(l, fill, bar), l.PositionOf(fill.symbol);
            && AllTidy(l')
            && l'.initialCash == l.initialCash
            && l'.cash + BookTotal(l') - SumTrades(GrossPnl, l'.trades) + l'.totalCommission + BookLoss(p, fill)
               == l.cash + BookTotal(l) - SumTrades(GrossPnl, l.trades) + l.totalCommission
            && OpenCostTotal(l') + SumTrades(Costs, l'.trades) - l'.totalCommission - l'.totalSlippage + CostResidue(p, fill)
               == OpenCostTotal(l) + SumTrades(Costs, l.trades) - l.totalCommission - l.totalSlippage
            && RealizedTotal(l') - SumTrades(Pnl, l'.trades) == RealizedTotal(l) - SumTrades(Pnl, l.trades)
  {
    var p := l.PositionOf(fill.symbol);
    EmptyIsWorthless(fill.symbol);
    TidyPosition(l, fill.symbol);
    hide Filled, ApplyFill, CostResidue, BookLoss, BookValue, EmptyPosition;
    var o := Filled(p, fill, bar);
    ApplyFillKeepsTidy(l, fill, bar);
    FieldsAfterFill(l, fill, bar);
    BookMoves(p, fill, bar);
    CostsMove(p, fill, bar);
    RealizedIsTradePnl(p, fill, bar);
    SumAfterFill(BookValue, l, fill, bar);
    SumAfterFill(OpenCosts, l, fill, bar);
    SumAfterFill(RealizedPnl, l, fill, bar);
    SumTradesConcat(GrossPnl, l.trades, o.trades);
    SumTradesConcat(Costs, l.trades, o.trades);
    SumTradesConcat(Pnl, l.trades, o.trades);
  }

  lemma TidyPosition(l: Portfolio, s: string)
    requires AllTidy(l)
    ensures Tidy(l.PositionOf(s)) && (l.PositionOf(s).IsFlat() ==> l.PositionOf(s).openCosts == 0.0)
  {
  }

  lemma CashDeltaSplit(fill: FillEvent)
    ensures fill.CashDelta() == -(fill.SignedQuantity() * fill.fillPrice) - fill.commission
  {
  }

  predicate PositiveFills(fills: seq<FillEvent>) {
    forall i :: 0 <= i < |fills| ==> fills[i].quantity > 0.0
  }

  ghost function ApplyFills(l: Portfolio, fills: seq<FillEvent>, bars: seq<int>): Portfolio
    requires |fills| == |bars| && PositiveFills(fills)
  {
    if fills == [] then l
    else
      var n := |fills| - 1;
      ApplyFill(ApplyFills(l, fills[..n], bars[..n]), fills[n], bars[n])
  }

  /** Book value forgotten by snaps over a whole history. */
  ghost function BookResidue(l: Portfolio, fills: seq<FillEvent>, bars: seq<int>): real
    requires |fills| == |bars| && PositiveFills(fills)
  {
    if fills == [] then 0.0
    else
      var n := |fills| - 1;
      var p := ApplyFills(l, fills[..n], bars[..n]).PositionOf(fills[n].symbol);
      BookResidue(l, fills[..n], bars[..n]) + BookLoss(p, fills[n])
  }

  /** 1e-12 times the average price. */
  function SnapBound(p: Position): real {
    SNAP * Abs(p.averagePrice)
  }

  /** SnapBound summed over the fills whose snap forgot a non-zero residue. */
  ghost function SnapBounds(l: Portfolio, fills: seq<FillEvent>, bars: seq<int>): real
    requires |fills| == |bars| && PositiveFills(fills)
  {
    if fills == [] then 0.0
    else
      var n := |fills| - 1;
      var p := ApplyFills(l, fills[..n], bars[..n]).PositionOf(fills[n].symbol);
      SnapBounds(l, fills[..n], bars[..n]) + if Residue(p, fills[n]) == 0.0 then 0.0 else SnapBound(p)
  }

  /** Entry costs forgotten by snaps over a whole history. */
  ghost function CostResidues(l: Portfolio, fills: seq<FillEvent>, bars: seq<int>): real
    requires |fills| == |bars| && PositiveFills(fills)
  {
    if fills == [] then 0.0
    else
      var n := |fills| - 1;
      var p := ApplyFills(l, fills[..n], bars[..n]).PositionOf(fills[n].symbol);
      CostResidues(l, fills[..n], bars[..n]) + CostResidue(p, fills[n])
  }

  /** No history has a residue: true of whole units, see WholeUnitsNeverSnap. */
  ghost predicate NoResidue(l: Portfolio, fills: seq<FillEvent>, bars: seq<int>)
    requires |fills| == |bars| && PositiveFills(fills)
  {
    forall i {:trigger fills[i]} :: 0 <= i < |fills| ==>
      Residue(ApplyFills(l, fills[..i], bars[..i]).PositionOf(fills[i].symbol), fills[i]) == 0.0
  }

  lemma NoFillsBalance(initialCash: real)
    ensures var l := NewPortfolio(initialCash);
            && AllTidy(l)
            && l.initialCash == l.cash == initialCash && l.totalCommission == l.totalSlippage == 0.0 && l.trades == []
            && BookTotal(l) == OpenCostTotal(l) == RealizedTotal(l) == 0.0
  {
  }

  /**
   * Cash plus book value is the starting cash plus gross realized results less commission;
   * costs are booked or still attached; realized PnL is the net of the trades. All exact,
   * up to the residues that snaps to flat forget.
   */
  ghost predicate Balanced(initialCash: real, l: Portfolio, bookResidue: real, costResidue: real) {
    && AllTidy(l)
    && l.initialCash == initialCash
    && l.cash + BookTotal(l) == initialCash + SumTrades(GrossPnl, l.trades) - l.totalCommission - bookResidue
    && SumTrades(Costs, l.trades) + OpenCostTotal(l) == l.totalCommission + l.totalSlippage - costResidue
    && RealizedTotal(l) == SumTrades(Pnl, l.trades)
  }

  /** The ledger identity, over every history of fills on any number of symbols. */
  lemma {:induction false} LedgerIdentity(initialCash: real, fills: seq<FillEvent>, bars: seq<int>)
    requires |fills| == |bars| && PositiveFills(fills)
    ensures var l0 := NewPortfolio(initialCash);
            Balanced(initialCash, ApplyFills(l0, fills, bars), BookResidue(l0, fills, bars), CostResidues(l0, fills, bars))
  {
    NoFillsBalance(initialCash);
    hide ApplyFill, BookLoss, CostResidue, BookTotal, OpenCostTotal, RealizedTotal, NewPortfolio, AllTidy;
    if fills != [] {
      var n := |fills| - 1;
      LedgerIdentity(initialCash, fills[..n], bars[..n]);
      ApplyFillBalances(ApplyFills(NewPortfolio(initialCash), fills[..n], bars[..n]), fills[n], bars[n]);
    }
  }

  /** Entering a flat position into the dictionary changes no total. */
  lemma TouchedBalance(initialCash: real, l: Portfolio, symbol: string, bookResidue: real, costResidue: real)
    requires Balanced(initialCash, l, bookResidue, costResidue)
    ensures Balanced(initialCash, l.Touched(symbol), bookResidue, costResidue)
  {
    hide BookTotal, OpenCostTotal, RealizedTotal, Portfolio.Touched, AllTidy, SumTrades;
    TouchedFields(l, symbol);
    TouchedTotals(l, symbol);
  }

  lemma TouchedTotals(l: Portfolio, symbol: string)
    requires AllTidy(l) && AllTidy(l.Touched(symbol))
    ensures var t := l.Touched(symbol);
            BookTotal(t) == BookTotal(l) && OpenCostTotal(t) == OpenCostTotal(l) && RealizedTotal(t) == RealizedTotal(l)
  {
    hide BookValue, EmptyPosition, Portfolio.Touched, Portfolio.Valid, SumPositions;
    EmptyIsWorthless(symbol);
    SumTouched(BookValue, l, symbol);
    SumTouched(OpenCosts, l, symbol);
    SumTouched(RealizedPnl, l, symbol);
  }

  lemma TouchedFields(l: Portfolio, symbol: string)
    requires AllTidy(l)
    ensures var t := l.Touched(symbol);
            && AllTidy(t) && t.initialCash == l.initialCash && t.cash == l.cash && t.trades == l.trades
            && t.totalCommission == l.totalCommission && t.totalSlippage == l.totalSlippage
  {
  }

  lemma NoResidueLosesNothing(p: Position, fill: FillEvent)
    requires fill.quantity > 0.0 && Residue(p, fill) == 0.0
    ensures CostResidue(p, fill) == 0.0 && BookLoss(p, fill) == 0.0
  {
  }

  lemma AbsProduct(x: real, y: real)
    ensures Abs(x * y) == Abs(x) * Abs(y)
  {
  }

  lemma SmallProduct(r: real, a: real)
    requires Abs(r) < SNAP
    ensures Abs(r * a) <= SNAP * Abs(a)
  {
    MulMono(Abs(r), SNAP, Abs(a));
    AbsProduct(r, a);
  }

  lemma LossIsTiny(p: Position, fill: FillEvent)
    requires fill.quantity > 0.0
    ensures Abs(BookLoss(p, fill)) <= if Residue(p, fill) == 0.0 then 0.0 else SnapBound(p)
  {
    if Residue(p, fill) == 0.0 {
      NoResidueLosesNothing(p, fill);
    } else {
      var r, a := Residue(p, fill), p.averagePrice;
      assert BookLoss(p, fill) == r * a && SnapBound(p) == SNAP * Abs(a) && Abs(r) < SNAP;
      hide Residue, BookLoss, SnapBound, Abs;
      SmallProduct(r, a);
    }
  }

  /** What snaps forget is at most 1e-12 times the average price of each snapped close. */
  lemma {:induction false} ResidueIsTiny(l: Portfolio, fills: seq<FillEvent>, bars: seq<int>)
    requires |fills| == |bars| && PositiveFills(fills)
    ensures Abs(BookResidue(l, fills, bars)) <= SnapBounds(l, fills, bars)
  {
    hide ApplyFill, Residue, CostResidue, BookLoss, SnapBound;
    if fills != [] {
      var n := |fills| - 1;
      ResidueIsTiny(l, fills[..n], bars[..n]);
      LossIsTiny(ApplyFills(l, fills[..n], bars[..n]).PositionOf(fills[n].symbol), fills[n]);
    }
  }

  lemma ShorterHistory(l: Portfolio, fills: seq<FillEvent>, bars: seq<int>)
    requires |fills| == |bars| && PositiveFills(fills) && fills != [] && NoResidue(l, fills, bars)
    ensures NoResidue(l, fills[..|fills| - 1], bars[..|fills| - 1])
  {
    hide ApplyFills, Residue;
    var n := |fills| - 1;
    forall i {:trigger fills[..n][i]} | 0 <= i < n
      ensures Residue(ApplyFills(l, fills[..n][..i], bars[..n][..i]).PositionOf(fills[..n][i].symbol), fills[..n][i]) == 0.0
    {
      assert fills[..n][i] == fills[i] && fills[..n][..i] == fills[..i] && bars[..n][..i] == bars[..i];
    }
  }

  /** Without snaps nothing is forgotten. */
  lemma {:induction false} NoSnapNoResidue(l: Portfolio, fills: seq<FillEvent>, bars: seq<int>)
    requires |fills| == |bars| && PositiveFills(fills) && NoResidue(l, fills, bars)
    ensures BookResidue(l, fills, bars) == 0.0 && CostResidues(l, fills, bars) == 0.0
  {
    hide ApplyFill, Residue, CostResidue, BookLoss, NoResidue;
    if fills != [] {
      var n := |fills| - 1;
      ShorterHistory(l, fills, bars);
      NoSnapNoResidue(l, fills[..n], bars[..n]);
      LastLeavesNothing(l, fills, bars);
      NoResidueLosesNothing(ApplyFills(l, fills[..n], bars[..n]).PositionOf(fills[n].symbol), fills[n]);
    }
  }

  lemma LastLeavesNothing(l: Portfolio, fills: seq<FillEvent>, bars: seq<int>)
    requires |fills| == |bars| && PositiveFills(fills) && fills != [] && NoResidue(l, fills, bars)
    ensures var n := |fills| - 1; Residue(ApplyFills(l, fills[..n], bars[..n]).PositionOf(fills[n].symbol), fills[n]) == 0.0
  {
    hide ApplyFills, Residue;
  }

  ghost predicate WholePositions(l: Portfolio) {
    forall s :: s in l.positions ==> Whole(l.positions[s].quantity)
  }

  lemma WholeStep(l: Portfolio, fill: FillEvent, bar: int)
    requires WholePositions(l) && fill.quantity > 0.0 && Whole(fill.quantity)
    ensures Residue(l.PositionOf(fill.symbol), fill) == 0.0
    ensures WholePositions(ApplyFill(l, fill, bar))
  {
    WholeInt(0);
    var p := l.PositionOf(fill.symbol);
    assert Whole(p.quantity);
    WholeFillsLeaveNoResidue(p, fill, bar);
    hide Filled, Whole;
    var l' := ApplyFill(l, fill, bar);
    forall s | s in l'.positions
      ensures Whole(l'.positions[s].quantity)
    {
      if s == fill.symbol {
        assert l'.positions[s] == Filled(p, fill, bar).position;
      }
    }
  }

  /** Whole-unit fills keep every position whole and never leave a residue. */
  lemma {:induction false} WholeUnitsNeverSnap(initialCash: real, fills: seq<FillEvent>, bars: seq<int>)
    requires |fills| == |bars| && PositiveFills(fills)
    requires forall i :: 0 <= i < |fills| ==> Whole(fills[i].quantity)
    ensures WholePositions(ApplyFills(NewPortfolio(initialCash), fills, bars))
    ensures NoResidue(NewPortfolio(initialCash), fills, bars)
  {
    hide ApplyFill, Residue;
    var l := NewPortfolio(initialCash);
    if fills != [] {
      var n := |fills| - 1;
      WholeUnitsNeverSnap(initialCash, fills[..n], bars[..n]);
      WholeStep(ApplyFills(l, fills[..n], bars[..n]), fills[n], bars[n]);
      forall i {:trigger fills[i]} | 0 <= i < |fills|
        ensures Residue(ApplyFills(l, fills[..i], bars[..i]).PositionOf(fills[i].symbol), fills[i]) == 0.0
      {
        if i < n {
          assert fills[..n][i] == fills[i] && fills[..n][..i] == fills[..i] && bars[..n][..i] == bars[..i];
        }
      }
    }
  }

  /** With every position flat, the cash gained is the realized PnL plus the slippage (already inside gross). */
  lemma {:induction false} FlatBookIsEmpty(keys: seq<string>, m: map<string, Position>)
    requires Covered(keys, m)
    requires forall s :: s in keys ==> m[s].IsFlat() && Tidy(m[s])
    ensures SumPositions(BookValue, keys, m) == 0.0 && SumPositions(OpenCosts, keys, m) == 0.0
  {
    if keys != [] {
      FlatBookIsEmpty(keys[..|keys| - 1], m);
    }
  }

  lemma {:induction false} PnlIsGrossLessCosts(trades: seq<Trade>)
    requires forall t :: t in trades ==> t.pnl == t.grossPnl - t.costs
    ensures SumTrades(Pnl, trades) == SumTrades(GrossPnl, trades) - SumTrades(Costs, trades)
  {
    if trades != [] {
      PnlIsGrossLessCosts(trades[..|trades| - 1]);
    }
  }

  lemma {:induction false} TradesAreNet(l: Portfolio, fills: seq<FillEvent>, bars: seq<int>)
    requires |fills| == |bars| && PositiveFills(fills)
    requires forall t :: t in l.trades ==> t.pnl == t.grossPnl - t.costs
    ensures forall t :: t in ApplyFills(l, fills, bars).trades ==> t.pnl == t.grossPnl - t.costs
  {
    hide ApplyFill, Filled;
    if fills != [] {
      var n := |fills| - 1;
      TradesAreNet(l, fills[..n], bars[..n]);
      var before := ApplyFills(l, fills[..n], bars[..n]);
      FieldsAfterFill(before, fills[n], bars[n]);
      TradeIsNet(before.PositionOf(fills[n].symbol), fills[n], bars[n]);
    }
  }

  /**
   * Whole-unit histories, flat at the end: cash grew by the realized PnL plus total slippage.
   * (Trade.pnl subtracts slippage that gross_pnl already contains.)
   */
  lemma FlatCashGain(initialCash: real, fills: seq<FillEvent>, bars: seq<int>)
    requires |fills| == |bars| && PositiveFills(fills)
    requires forall i :: 0 <= i < |fills| ==> Whole(fills[i].quantity)
    requires var l := ApplyFills(NewPortfolio(initialCash), fills, bars);
             forall s :: s in l.positions ==> l.positions[s].IsFlat()
    ensures var l := ApplyFills(NewPortfolio(initialCash), fills, bars);
            && AllTidy(l)
            && l.cash - initialCash == RealizedTotal(l) + l.totalSlippage
            && l.cash - initialCash == SumTrades(GrossPnl, l.trades) - l.totalCommission
            && SumTrades(Costs, l.trades) == l.totalCommission + l.totalSlippage
  {
    var l0 := NewPortfolio(initialCash);
    var l := ApplyFills(l0, fills, bars);
    LedgerIdentity(initialCash, fills, bars);
    WholeUnitsNeverSnap(initialCash, fills, bars);
    NoSnapNoResidue(l0, fills, bars);
    hide ApplyFills, BookResidue, CostResidues;
    FlatBookIsEmpty(l.keys, l.positions);
    TradesAreNet(l0, fills, bars);
    PnlIsGrossLessCosts(l.trades);
  }

  /** Total slippage is that of the fills: never negative, and zero exactly when every fill was at its reference price. */
  lemma {:induction false} SlippageOfFills(initialCash: real, fills: seq<FillEvent>, bars: seq<int>)
    requires |fills| == |bars| && PositiveFills(fills)
    ensures var l := ApplyFills(NewPortfolio(initialCash), fills, bars);
            l.totalSlippage >= 0.0 &&
            (l.totalSlippage == 0.0 <==> forall i :: 0 <= i < |fills| ==> fills[i].fillPrice == fills[i].referencePrice)
  {
    hide ApplyFill, FillEvent.SlippageCost;
    if fills != [] {
      var n := |fills| - 1;
      SlippageOfFills(initialCash, fills[..n], bars[..n]);
      assert forall i :: 0 <= i < n ==> fills[..n][i] == fills[i];
      SlippageAfterFill(ApplyFills(NewPortfolio(initialCash), fills[..n], bars[..n]), fills[n], bars[n]);
      SlippageSign(fills[n]);
    }
  }

  lemma SlippageAfterFill(l: Portfolio, fill: FillEvent, bar: int)
    requires fill.quantity > 0.0
    ensures ApplyFill(l, fill, bar).totalSlippage == l.totalSlippage + fill.SlippageCost()
  {
    hide Filled, FillEvent.SlippageCost;
  }

  lemma SlippageSign(fill: FillEvent)
    requires fill.quantity > 0.0
    ensures fill.SlippageCost() >= 0.0
    ensures fill.SlippageCost() == 0.0 <==> fill.fillPrice == fill.referencePrice
  {
    var d := Abs(fill.fillPrice - fill.referencePrice);
    MulNonNegative(d, fill.quantity);
    if d > 0.0 {
      MulMonoStrict(0.0, d, fill.quantity);
    }
  }

  /** So realized PnL is what a flat account gained exactly when no fill slipped. */
  lemma GainIsRealizedWithoutSlippage(initialCash: real, fills: seq<FillEvent>, bars: seq<int>)
    requires |fills| == |bars| && PositiveFills(fills)
    requires forall i :: 0 <= i < |fills| ==> Whole(fills[i].quantity)
    requires var l := ApplyFills(NewPortfolio(initialCash), fills, bars);
             forall s :: s in l.positions ==> l.positions[s].IsFlat()
    ensures AllTidy(ApplyFills(NewPortfolio(initialCash), fills, bars))
    ensures var l := ApplyFills(NewPortfolio(initialCash), fills, bars);
            l.cash - initialCash == RealizedTotal(l) <==>
              forall i :: 0 <= i < |fills| ==> fills[i].fillPrice == fills[i].referencePrice
  {
    hide ApplyFills, Whole;
    FlatCashGain(initialCash, fills, bars);
    SlippageOfFills(initialCash, fills, bars);
  }

  /** One unit bought at 101 and sold at 99, both against a reference of 100, without commission. */
  predicate SlippedRoundTrip(fills: seq<FillEvent>) {
    && |fills| == 2
    && fills[0] == FillEvent(0, "S", Buy, 1.0, 100.0, 101.0, 0.0, "")
    && fills[1] == FillEvent(1, "S", Sell, 1.0, 100.0, 99.0, 0.0, "")
  }

  /** It loses 2 in cash, and 4 according to its trade. */
  lemma SlippageCountsTwice(initialCash: real, fills: seq<FillEvent>, bars: seq<int>)
    requires SlippedRoundTrip(fills) && |bars| == 2
    ensures PositiveFills(fills) && AllTidy(ApplyFills(NewPortfolio(initialCash), fills, bars))
    ensures var l := ApplyFills(NewPortfolio(initialCash), fills, bars);
            l.cash - initialCash == -2.0 && RealizedTotal(l) == -4.0
  {
    hide Filled;
    var l0 := NewPortfolio(initialCash);
    assert fills[..1][..0] == [] && fills[..1] == [fills[0]] && bars[..1][..0] == [];
    assert ApplyFills(l0, [], []) == l0;
    var l1 := ApplyFill(l0, fills[0], bars[0]);
    assert ApplyFills(l0, fills[..1], bars[..1]) == l1;
    WholeInt(0);
    WholeInt(1);
    WholeFillsLeaveNoResidue(EmptyPosition("S"), fills[0], bars[0]);
    WholeFillsLeaveNoResidue(l1.PositionOf("S"), fills[1], bars[1]);
    FlatCashGain(initialCash, fills, bars);
  }

  ghost function Unrealized(keys: seq<string>, m: map<string, Position>, prices: map<string, real>): real
    requires Covered(keys, m) && forall s :: s in keys ==> s in prices
  {
    if keys == [] then 0.0
    else
      var s := keys[|keys| - 1];
      Unrealized(keys[..|keys| - 1], m, prices) + m[s].UnrealizedPnl(prices[s])
  }

  lemma {:induction false} MarketIsBookPlusUnrealized(keys: seq<string>, m: map<string, Position>, prices: map<string, real>)
    requires Covered(keys, m) && forall s :: s in keys ==> s in prices
    ensures MarketValue(keys, m, prices) == SumPositions(BookValue, keys, m) + Unrealized(keys, m, prices)
  {
    if keys != [] {
      MarketIsBookPlusUnrealized(keys[..|keys| - 1], m, prices);
      var p, price := m[keys[|keys| - 1]], prices[keys[|keys| - 1]];
      assert p.quantity * price == p.quantity * p.averagePrice + (price - p.averagePrice) * p.quantity;
    }
  }

  /**
   * Equity, marked at any prices, splits into starting cash, realized, unrealized and commission, less the
   * book residue of snaps, of which whole-unit histories have none.
   */
  lemma EquityDecomposes(initialCash: real, fills: seq<FillEvent>, bars: seq<int>, prices: map<string, real>)
    requires |fills| == |bars| && PositiveFills(fills)
    requires forall s :: s in ApplyFills(NewPortfolio(initialCash), fills, bars).keys ==> s in prices
    ensures var l0 := NewPortfolio(initialCash);
            var l := ApplyFills(l0, fills, bars);
            && AllTidy(l)
            && Equity(l, prices) == initialCash + SumTrades(GrossPnl, l.trades)
                                    + Unrealized(l.keys, l.positions, prices) - l.totalCommission
                                    - BookResidue(l0, fills, bars)
            && ((forall i :: 0 <= i < |fills| ==> Whole(fills[i].quantity)) ==> BookResidue(l0, fills, bars) == 0.0)
  {
    hide ApplyFills, BookResidue, CostResidues, Unrealized, SumTrades, Whole;
    var l0 := NewPortfolio(initialCash);
    LedgerIdentity(initialCash, fills, bars);
    var l := ApplyFills(l0, fills, bars);
    MarketIsBookPlusUnrealized(l.keys, l.positions, prices);
    if forall i :: 0 <= i < |fills| ==> Whole(fills[i].quantity) {
      WholeUnitsNeverSnap(initialCash, fills, bars);
      NoSnapNoResidue(l0, fills, bars);
    }
  }
}
