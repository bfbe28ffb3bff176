/** What became of each target: reached, kept from by a skip, or approached by the largest affordable buy. */
module Tracking {
  import opened Prelude
  import opened RealMath
  import opened Events
  import opened Ledger
  import opened FillLaws
  import opened Engine
  import opened Steps
  import opened Cash

  /** A buy is cut exactly when cash does not cover price and commission of the whole order. */
  lemma ReducedExecution(order: Order, market: MarketEvent, config: Config, cash: real)
    requires order.timestamp == market.timestamp
    ensures var e := Execute(order, market, config, cash);
            var price := config.costs.FillPrice(config.executionModel.PriceOf(market), order.side);
            && (e.Executed? && e.warnings != [] ==>
                  && order.side == Buy
                  && !CanAfford(cash, Buy, order.quantity, price, config.costs.Commission(Notional(order.quantity, price)))
                  && e.fill.quantity == MaxAffordable(cash, price, config.costs.Rate()) > 0.0
                  && e.fill.fillPrice == price
                  && e.warnings == [ReducedBuy(market.timestamp, order.symbol, order.quantity, e.fill.quantity)])
  {
    hide CostModel.FillPrice, CostModel.Commission, MaxAffordable, Notional;
  }

  lemma MultiplesCompare(a: real, b: real, per: real)
    requires per > 0.0 && a * per < b * per
    ensures a < b
  {
    if a >= b {
      MulMono(b, a, per);
    }
  }

  /** Without a floor, failing the affordability check means costing more than cash at the proportional rate. */
  lemma UnaffordableCost(cash: real, quantity: real, price: real, costs: CostModel)
    requires costs.Valid() && costs.commissionMin == 0.0 && quantity > 0.0 && price > 0.0
    requires !CanAfford(cash, Buy, quantity, price, costs.Commission(Notional(quantity, price)))
    ensures cash < quantity * PerUnit(price, costs.Rate())
  {
    var rate := costs.Rate();
    NotionalSign(quantity, price);
    CommissionIsMax(costs, Notional(quantity, price));
    PerUnitParts(quantity, price, rate);
    assert quantity * PerUnit(price, rate) == Notional(quantity, price) + Notional(quantity, price) * rate;
    hide Notional, PerUnit, CostModel.Commission, CostModel.Rate;
  }

  /** What a cut leaves: the largest whole affordable quantity, smaller than the order when there is no floor. */
  lemma CutQuantity(cash: real, quantity: real, price: real, costs: CostModel)
    requires costs.Valid() && quantity > 0.0 && MaxAffordable(cash, price, costs.Rate()) > 0.0
    requires !CanAfford(cash, Buy, quantity, price, costs.Commission(Notional(quantity, price)))
    ensures var a, per := MaxAffordable(cash, price, costs.Rate()), PerUnit(price, costs.Rate());
            && Whole(a) && a * per <= cash < (a + 1.0) * per
            && (costs.commissionMin == 0.0 ==> a < quantity)
  {
    hide PerUnit, CostModel.Commission, CanAfford, Whole;
    var a, rate := MaxAffordable(cash, price, costs.Rate()), costs.Rate();
    assert rate >= 0.0;
    AffordablePositiveNeedsCash(cash, price, rate);
    AffordableIsLargest(cash, price, rate);
    PerUnitPositive(price, rate);
    hide MaxAffordable, Notional, CostModel.Rate;
    if costs.commissionMin == 0.0 {
      UnaffordableCost(cash, quantity, price, costs);
      var per := PerUnit(price, rate);
      assert a * per <= cash < quantity * per;
      MultiplesCompare(a, quantity, per);
    }
  }

  /** Every buy cut for lack of cash is cut to less than was ordered, whatever the order, price and cash. */
  ghost predicate CutsAreSmaller(costs: CostModel) {
    forall cash: real, quantity: real, price: real ::
      quantity > 0.0 && price > 0.0 &&
      !CanAfford(cash, Buy, quantity, price, costs.Commission(Notional(quantity, price)))
      ==> MaxAffordable(cash, price, costs.Rate()) < quantity
  }

  /** A "reduced" buy can exceed the order exactly when there is a commission floor, which the cut ignores. */
  lemma CutsAreSmallerWithoutAFloor(costs: CostModel)
    requires costs.Valid()
    ensures CutsAreSmaller(costs) <==> costs.commissionMin == 0.0
  {
    if costs.commissionMin == 0.0 {
      forall cash: real, quantity: real, price: real
        | quantity > 0.0 && price > 0.0 &&
          !CanAfford(cash, Buy, quantity, price, costs.Commission(Notional(quantity, price)))
        ensures MaxAffordable(cash, price, costs.Rate()) < quantity
      {
        if MaxAffordable(cash, price, costs.Rate()) > 0.0 {
          CutQuantity(cash, quantity, price, costs);
        }
      }
    } else {
      var c := costs.commissionMin;
      FloorInflatesCut(costs, c);
      assert !(MaxAffordable(c, QuarterPrice(costs), costs.Rate()) < 1.0);
    }
  }

  /** The price at which four units cost the commission floor, proportional commission included. */
  function QuarterPrice(costs: CostModel): real
    requires costs.Valid()
  {
    costs.commissionMin / (4.0 * (1.0 + costs.Rate()))
  }

  lemma QuarterPriceIsQuarter(costs: CostModel)
    requires costs.Valid() && costs.commissionMin > 0.0
    ensures QuarterPrice(costs) > 0.0
    ensures PerUnit(QuarterPrice(costs), costs.Rate()) * 4.0 == costs.commissionMin
  {
    var c, r, p := costs.commissionMin, 1.0 + costs.Rate(), QuarterPrice(costs);
    assert r >= 1.0;
    hide CostModel.Rate;
    DivMul(c, 4.0 * r);
    assert p * (4.0 * r) == p * r * 4.0;
    if p <= 0.0 {
      MulMono(p, 0.0, 4.0 * r);
    }
  }

  lemma FourQuarters(cash: real, per: real)
    requires per > 0.0 && per * 4.0 == cash
    ensures Truncate(cash / per) == 4
  {
    QuotientAtLeast(cash, per, 4.0);
    QuotientAtMost(cash, per, 4.0);
  }

  /** Cash equal to the floor cannot pay for one unit at that price, or any order of it, yet "affords" four. */
  lemma FloorInflatesCut(costs: CostModel, c: real)
    requires costs.Valid() && costs.commissionMin == c > 0.0
    ensures var price := QuarterPrice(costs);
            && price > 0.0
            && !CanAfford(c, Buy, 1.0, price, costs.Commission(Notional(1.0, price)))
            && MaxAffordable(c, price, costs.Rate()) == 4.0
  {
    var price, rate := QuarterPrice(costs), costs.Rate();
    QuarterPriceIsQuarter(costs);
    hide QuarterPrice, CostModel.Rate;
    assert Notional(1.0, price) == price > 0.0;
    CommissionIsMax(costs, Notional(1.0, price));
    FourQuarters(c, PerUnit(price, rate));
    hide Truncate, PerUnit, CostModel.Commission;
  }

  /** All targets are whole numbers of units. */
  ghost predicate WholeTargets<D>(env: Env<D>, memory: D)
    requires env.Valid()
  {
    forall i: nat :: i < |env.bars| ==> Whole(DecisionAt(env, memory, i).target)
  }

  /** How the position at bar i + 1 relates to the target decided at bar i. */
  ghost predicate Tracks<D>(env: Env<D>, memory: D, i: nat)
    requires env.Valid() && i + 1 < |env.bars|
  {
    var q, q', target := QuantityAt(env, memory, i), QuantityAt(env, memory, i + 1), DecisionAt(env, memory, i).target;
    match OrderAt(env, memory, i)
    case None => q' == q == target
    case Some(order) =>
      match ExecutionAt(env, memory, i)
      case WrongBar => false
      case Skipped(_) => q' == q
      case Executed(f, ws) =>
        if ws == [] then q' == target
        else
          && q' == q + f.quantity && q < q' && q < target
          && (env.config.costs.commissionMin == 0.0 ==> q' < target)
          && f.quantity * PerUnit(f.fillPrice, env.config.costs.Rate()) <= CashAt(env, memory, i)
             < (f.quantity + 1.0) * PerUnit(f.fillPrice, env.config.costs.Rate())
  }

  /**
   * With whole-unit targets everything stays whole, and each position is the previous target unless its bar
   * carries a warning: a skip leaves the position alone, a cut moves it strictly towards the target by the
   * largest whole quantity that cash pays for at the proportional commission.
   */
  lemma WholeTargetsAreTracked<D>(env: Env<D>, memory: D, i: nat)
    requires env.Valid() && i < |env.bars| && WholeTargets(env, memory)
    requires env.config.costs.Valid()
    ensures Whole(QuantityAt(env, memory, i))
    ensures i + 1 < |env.bars| ==> Tracks(env, memory, i)
    ensures i + 1 < |env.bars| && Reached(env, memory, i + 1).warnings == Reached(env, memory, i).warnings ==>
              QuantityAt(env, memory, i + 1) == DecisionAt(env, memory, i).target
  {
    hide QuantityAt, DecisionAt, Reached, Tracks, Whole;
    WholeThroughout(env, memory, i);
    if i + 1 < |env.bars| {
      NextIsTracked(env, memory, i);
    }
  }

  lemma {:induction false} WholeThroughout<D>(env: Env<D>, memory: D, i: nat)
    requires env.Valid() && i < |env.bars| && WholeTargets(env, memory)
    requires env.config.costs.Valid()
    ensures Whole(QuantityAt(env, memory, i))
  {
    hide Reached, Tracks, Whole;
    if i == 0 {
      FirstBar(env, memory);
      WholeInt(0);
    } else {
      WholeThroughout(env, memory, i - 1);
      NextIsTracked(env, memory, i - 1);
    }
  }

  lemma SmallWholeDelta(q: real, target: real)
    requires Whole(q) && Whole(target) && Abs(target - q) < MINIMUM_ORDER
    ensures q == target
  {
    WholeSum(target, q);
    WholeBelowOne(target - q);
  }

  /** A whole-unit fill moves a whole position by its signed quantity. */
  lemma WholeFillMoves(symbol: string, l: Portfolio, f: FillEvent, bar: int)
    requires Solo(symbol, l) && f.symbol == symbol && f.quantity > 0.0
    requires Whole(l.PositionOf(symbol).quantity) && Whole(f.quantity)
    ensures var q, q' := l.PositionOf(symbol).quantity, ApplyFill(l, f, bar).PositionOf(symbol).quantity;
            && Whole(q')
            && q' == if f.side == Buy then q + f.quantity else q - f.quantity
  {
    hide ApplyFill, Filled, Whole;
    SoloIsTidy(symbol, l);
    FillKeepsSolo(symbol, l, f, bar);
    WholeFillsLeaveNoResidue(l.PositionOf(symbol), f, bar);
    SignedSize(f);
  }

  lemma SoloIsTidy(symbol: string, l: Portfolio)
    requires Solo(symbol, l)
    ensures Conservation.AllTidy(l) && forall s :: s in l.positions ==> s == symbol
  {
  }

  /** The quantities of an executed order for a whole target. */
  lemma ExecutedMoves<D>(env: Env<D>, memory: D, i: nat)
    requires env.Valid() && i + 1 < |env.bars| && Whole(QuantityAt(env, memory, i)) && Whole(DecisionAt(env, memory, i).target)
    requires env.config.costs.Valid()
    requires OrderAt(env, memory, i).Some? && ExecutionAt(env, memory, i).Executed?
    ensures var order, e := OrderAt(env, memory, i).value, ExecutionAt(env, memory, i);
            var q, q', f := QuantityAt(env, memory, i), QuantityAt(env, memory, i + 1), e.fill;
            && Whole(q')
            && q' == (if order.side == Buy then q + f.quantity else q - f.quantity)
            && f.quantity > 0.0
            && (e.warnings == [] ==> f.quantity == order.quantity)
            && (e.warnings != [] ==>
                  && order.side == Buy
                  && (env.config.costs.commissionMin == 0.0 ==> f.quantity < order.quantity)
                  && f.quantity * PerUnit(f.fillPrice, env.config.costs.Rate()) <= CashAt(env, memory, i)
                     < (f.quantity + 1.0) * PerUnit(f.fillPrice, env.config.costs.Rate()))
  {
    hide Reached, Execute, ApplyFill, Filled, OrderAt, Whole, DecisionAt, PerUnit, FillEvent.SignedQuantity, Solo;
    RunIsSolo(env, memory, i);
    NextBar(env, memory, i);
    OrderFacts(env, memory, i);
    var l, order, e := Reached(env, memory, i).portfolio, OrderAt(env, memory, i).value, ExecutionAt(env, memory, i);
    WholeSum(DecisionAt(env, memory, i).target, QuantityAt(env, memory, i));
    WholeAbs(DecisionAt(env, memory, i).target - QuantityAt(env, memory, i));
    ExecuteFacts(order, env.Market(i + 1), env.config, l.cash);
    if e.warnings != [] {
      ReducedExecution(order, env.Market(i + 1), env.config, l.cash);
      ReducedAmount(order, env.Market(i + 1), env.config, l.cash);
    }
    WholeFillMoves(env.symbol, l, e.fill, i + 1);
  }

  lemma NextIsTracked<D>(env: Env<D>, memory: D, i: nat)
    requires env.Valid() && i + 1 < |env.bars|
    requires Whole(QuantityAt(env, memory, i)) && Whole(DecisionAt(env, memory, i).target)
    requires env.config.costs.Valid()
    ensures Whole(QuantityAt(env, memory, i + 1)) && Tracks(env, memory, i)
    ensures Reached(env, memory, i + 1).warnings == Reached(env, memory, i).warnings ==>
              QuantityAt(env, memory, i + 1) == DecisionAt(env, memory, i).target
  {
    hide Reached, Execute, ApplyFill, OrderAt, Whole, DecisionAt, PerUnit, Solo;
    RunIsSolo(env, memory, i);
    NextBar(env, memory, i);
    OrderFacts(env, memory, i);
    if OrderAt(env, memory, i) == None {
      SmallWholeDelta(QuantityAt(env, memory, i), DecisionAt(env, memory, i).target);
    } else if ExecutionAt(env, memory, i).Executed? {
      ExecutedMoves(env, memory, i);
    }
  }

  lemma ReducedAmount(order: Order, market: MarketEvent, config: Config, cash: real)
    requires order.timestamp == market.timestamp && config.costs.Valid()
    requires Execute(order, market, config, cash).Executed? && Execute(order, market, config, cash).warnings != []
    ensures var f, per := Execute(order, market, config, cash).fill, PerUnit(Execute(order, market, config, cash).fill.fillPrice, config.costs.Rate());
            && Whole(f.quantity)
            && f.quantity * per <= cash < (f.quantity + 1.0) * per
            && (config.costs.commissionMin == 0.0 ==> f.quantity < order.quantity)
  {
    hide Execute, CanAfford, MaxAffordable, CostModel.FillPrice, CostModel.Commission, Notional, PerUnit, Whole;
    ReducedExecution(order, market, config, cash);
    var f := Execute(order, market, config, cash).fill;
    CutQuantity(cash, order.quantity, f.fillPrice, config.costs);
  }
}
