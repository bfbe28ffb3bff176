/** How far below zero cash can go: the affordability check, the commission floor and the close-out. */
module Cash {
  import opened Prelude
  import opened RealMath
  import opened Events
  import opened Ledger
  import opened Engine
  import opened Steps
  import opened FillLaws
  import opened RunLaws

  /** Rates that are fractions: commission at most 100%, slippage plus half the spread at most 100%. */
  predicate Bounded(costs: CostModel) {
    costs.Valid() && costs.Rate() <= 1.0 && costs.Penalty() <= 1.0
  }

  predicate PositivePrices(bars: seq<Bar>) {
    forall i :: 0 <= i < |bars| ==> bars[i].open > 0.0 && bars[i].close > 0.0
  }

  lemma FillPriceSign(costs: CostModel, reference: real, side: Side)
    requires Bounded(costs) && reference > 0.0
    ensures costs.FillPrice(reference, side) >= 0.0
    ensures side == Buy ==> costs.FillPrice(reference, side) >= reference
  {
    var k := 1.0 + side.Sign() as real * costs.Penalty();
    assert costs.Penalty() >= 0.0;
    hide CostModel.Penalty;
    assert if side == Buy then k >= 1.0 else k >= 0.0;
    MulNonNegative(reference, k);
    if side == Buy {
      MulMono(1.0, k, reference);
    }
  }

  /** Commission is the larger of the floor and the proportional part. */
  lemma CommissionIsMax(costs: CostModel, notional: real)
    requires costs.Valid() && notional >= 0.0
    ensures costs.Commission(notional) == Max(costs.commissionMin, notional * costs.Rate())
    ensures 0.0 <= notional * costs.Rate()
  {
    assert Abs(notional) * costs.commissionBps / BPS == notional * costs.Rate();
    assert costs.Rate() >= 0.0;
    hide CostModel.Rate;
    MulNonNegative(notional, costs.Rate());
  }

  lemma CommissionParts(costs: CostModel, notional: real)
    requires Bounded(costs) && notional >= 0.0
    ensures costs.Commission(notional) == Max(costs.commissionMin, notional * costs.Rate())
    ensures 0.0 <= notional * costs.Rate() <= notional
  {
    hide CostModel.Rate, CostModel.Commission;
    CommissionIsMax(costs, notional);
    MulMono(costs.Rate(), 1.0, notional);
  }

  lemma PerUnitPositive(price: real, rate: real)
    requires price > 0.0 && rate >= 0.0
    ensures PerUnit(price, rate) >= price > 0.0
  {
    MulMono(1.0, 1.0 + rate, price);
  }

  lemma AtLeastMultiple(x: real, a: real, per: real, cash: real)
    requires per > 0.0 && a <= x && x * per == cash
    ensures a * per <= cash
  {
    MulMono(a, x, per);
  }

  lemma BelowNextMultiple(x: real, a: real, per: real, cash: real)
    requires per > 0.0 && x < a + 1.0 && x * per == cash
    ensures cash < (a + 1.0) * per
  {
    var b := a + 1.0;
    MulMonoStrict(x, b, per);
  }

  lemma QuotientSign(cash: real, per: real)
    requires per > 0.0 && cash >= 0.0
    ensures cash / per >= 0.0 && (cash / per) * per == cash
  {
    DivMul(cash, per);
    QuotientAtLeast(cash, per, 0.0);
  }

  lemma WholeUnitsOf(cash: real, per: real)
    requires per > 0.0 && cash >= 0.0
    ensures var a := Truncate(cash / per) as real; a * per <= cash < (a + 1.0) * per
  {
    QuotientSign(cash, per);
    var x := cash / per;
    var a := Truncate(x) as real;
    hide Truncate;
    AtLeastMultiple(x, a, per, cash);
    BelowNextMultiple(x, a, per, cash);
  }

  /** max_affordable_quantity is whole, and the largest whole number of units that cash covers at the proportional rate. */
  lemma AffordableIsLargest(cash: real, price: real, rate: real)
    requires price > 0.0 && rate >= 0.0 && cash >= 0.0
    ensures var a := MaxAffordable(cash, price, rate);
            && Whole(a) && a >= 0.0
            && a * PerUnit(price, rate) <= cash < (a + 1.0) * PerUnit(price, rate)
  {
    PerUnitPositive(price, rate);
    WholeUnitsOf(cash, PerUnit(price, rate));
    hide PerUnit;
    WholeInt(Truncate(cash / PerUnit(price, rate)));
    QuotientSign(cash, PerUnit(price, rate));
    hide Truncate, Whole;
  }

  lemma NothingToSpend(cash: real, price: real, rate: real)
    requires rate >= 0.0
    ensures price <= 0.0 || cash <= 0.0 ==> MaxAffordable(cash, price, rate) <= 0.0
  {
    if price > 0.0 && cash <= 0.0 {
      PerUnitPositive(price, rate);
      QuotientAtMost(cash, PerUnit(price, rate), 0.0);
    }
    hide PerUnit;
  }

  /** Without cash nothing is affordable. */
  lemma AffordablePositiveNeedsCash(cash: real, price: real, rate: real)
    requires rate >= 0.0 && MaxAffordable(cash, price, rate) > 0.0
    ensures price > 0.0 && cash > 0.0
  {
    NothingToSpend(cash, price, rate);
    hide MaxAffordable;
  }

  /** What a fill costs or brings in, given the price and quantity. */
  lemma CashDeltaBySide(f: FillEvent)
    ensures f.side == Buy ==> f.CashDelta() == -Notional(f.quantity, f.fillPrice) - f.commission
    ensures f.side == Sell ==> f.CashDelta() == Notional(f.quantity, f.fillPrice) - f.commission
  {
  }

  lemma NotionalSign(quantity: real, price: real)
    requires quantity >= 0.0 && price >= 0.0
    ensures Notional(quantity, price) >= 0.0
  {
  }

  /** A buy cut to max_affordable_quantity overdraws by at most the commission floor. */
  lemma ReducedBuyCash(cash: real, price: real, costs: CostModel)
    requires Bounded(costs) && price > 0.0 && MaxAffordable(cash, price, costs.Rate()) > 0.0
    ensures var a := MaxAffordable(cash, price, costs.Rate());
            cash - Notional(a, price) - costs.Commission(Notional(a, price)) >= -costs.commissionMin
  {
    var a, rate := MaxAffordable(cash, price, costs.Rate()), costs.Rate();
    assert rate >= 0.0;
    AffordablePositiveNeedsCash(cash, price, rate);
    AffordableIsLargest(cash, price, rate);
    NotionalSign(a, price);
    CommissionParts(costs, Notional(a, price));
    assert a * PerUnit(price, rate) == Notional(a, price) + Notional(a, price) * rate by {
      PerUnitParts(a, price, rate);
    }
    hide MaxAffordable, Notional, PerUnit, CostModel.Commission, CostModel.Rate;
    ReducedLeaves(cash, Notional(a, price), Notional(a, price) * rate, costs.commissionMin);
  }

  lemma PerUnitParts(a: real, price: real, rate: real)
    ensures a * (price * (1.0 + rate)) == a * price + (a * price) * rate
  {
  }

  lemma ReducedLeaves(cash: real, notional: real, proportional: real, floor: real)
    requires cash >= notional + proportional && proportional >= 0.0 && floor >= 0.0
    ensures cash - notional - Max(floor, proportional) >= -floor
  {
  }

  /** One execution: a buy leaves at least minus the floor, a sell takes at most the floor. */
  lemma ExecutionCash(order: Order, market: MarketEvent, config: Config, cash: real)
    requires Bounded(config.costs) && market.open > 0.0 && market.close > 0.0
    requires Execute(order, market, config, cash).Executed?
    ensures var cash' := cash + Execute(order, market, config, cash).fill.CashDelta();
            && (order.side == Buy ==> cash' >= -config.costs.commissionMin)
            && (order.side == Sell ==> cash' >= cash - config.costs.commissionMin)
  {
    var costs := config.costs;
    var f := Execute(order, market, config, cash).fill;
    ExecuteFacts(order, market, config, cash);
    FillPriceSign(costs, f.referencePrice, f.side);
    NotionalSign(f.quantity, f.fillPrice);
    CommissionParts(costs, Notional(f.quantity, f.fillPrice));
    CashDeltaBySide(f);
    if order.side == Buy && !CanAfford(cash, Buy, order.quantity, f.fillPrice, costs.Commission(Notional(order.quantity, f.fillPrice))) {
      assert f.quantity == MaxAffordable(cash, f.fillPrice, costs.Rate()) by {
        hide Notional, CostModel.FillPrice, CostModel.Commission, MaxAffordable, CanAfford;
      }
      ReducedBuyCash(cash, f.fillPrice, costs);
    } else {
      assert f.quantity == order.quantity by {
        hide Notional, CostModel.FillPrice, CostModel.Commission, MaxAffordable;
      }
    }
    hide Execute, Notional, CostModel.FillPrice, CostModel.Commission, CostModel.Rate, MaxAffordable, FillEvent.CashDelta;
  }

  lemma OneMoreFloor(floor: real, k: nat)
    requires floor >= 0.0
    ensures floor * (k + 1) as real == floor * k as real + floor
    ensures floor * k as real >= 0.0
  {
    assert (k + 1) as real == k as real + 1.0;
  }

  /**
   * For any decider, shorts included, cash before the close-out is never below minus the
   * commission floor times the number of fills.
   */
  lemma {:induction false} CashBound<D>(env: Env<D>, memory: D, i: nat)
    requires env.Valid() && i < |env.bars|
    requires Bounded(env.config.costs) && PositivePrices(env.bars) && env.config.initialCash > 0.0
    ensures CashAt(env, memory, i) >= -(env.config.costs.commissionMin * |Reached(env, memory, i).fills| as real)
  {
    hide Reached, Execute, ApplyFill, OrderAt, Solo, Bounded, FillEvent.CashDelta;
    if i == 0 {
      FirstBar(env, memory);
    } else {
      var j := i - 1;
      CashBound(env, memory, j);
      RunIsSolo(env, memory, j);
      NextBar(env, memory, j);
      var floor, k := env.config.costs.commissionMin, |Reached(env, memory, j).fills|;
      BoundedFloor(env.config.costs);
      OneMoreFloor(floor, k);
      var order := OrderAt(env, memory, j);
      if order.Some? && ExecutionAt(env, memory, j).Executed? {
        var f := ExecutionAt(env, memory, j).fill;
        ExecutionCash(order.value, env.Market(i), env.config, CashAt(env, memory, j));
        FilledCash(Reached(env, memory, j).portfolio, f, i);
      }
    }
  }

  lemma BoundedFloor(costs: CostModel)
    requires Bounded(costs)
    ensures costs.commissionMin >= 0.0
  {
  }

  lemma FilledCash(l: Portfolio, fill: FillEvent, bar: int)
    requires fill.quantity >= 0.0
    ensures ApplyFill(l, fill, bar).cash == l.cash + fill.CashDelta()
  {
    hide Filled, FillEvent.CashDelta;
  }

  /** Without a floor, cash is never negative before the close-out. */
  lemma CashNeverNegative<D>(env: Env<D>, memory: D, i: nat)
    requires env.Valid() && i < |env.bars|
    requires Bounded(env.config.costs) && PositivePrices(env.bars) && env.config.initialCash > 0.0
    requires env.config.costs.commissionMin == 0.0
    ensures CashAt(env, memory, i) >= 0.0
  {
    hide Reached;
    CashBound(env, memory, i);
    assert 0.0 * |Reached(env, memory, i).fills| as real == 0.0;
  }

  /** No market, no targets and no starting cash overdraw an account under these costs. */
  ghost predicate NeverOverdrawn(costs: CostModel) {
    forall env: Env<()>, i: nat ::
      env.Valid() && i < |env.bars| && env.config.costs == costs && env.config.initialCash > 0.0 && PositivePrices(env.bars)
      ==> CashAt(env, (), i) >= 0.0
  }

  /** Cash stays non-negative on every run exactly when the cost model has no commission floor. */
  lemma OverdraftNeedsAFloor(costs: CostModel)
    requires Bounded(costs)
    ensures NeverOverdrawn(costs) <==> costs.commissionMin == 0.0
  {
    if costs.commissionMin == 0.0 {
      forall env: Env<()>, i: nat
        | env.Valid() && i < |env.bars| && env.config.costs == costs && env.config.initialCash > 0.0 && PositivePrices(env.bars)
        ensures CashAt(env, (), i) >= 0.0
      {
        CashNeverNegative(env, (), i);
      }
    } else {
      FloorOverdraws(costs);
      assert !(CashAt(FloorMarket(costs), (), 1) >= 0.0);
    }
  }

  function OneUnitPrice(a: real, b: real, c: real): real
    requires a * b != 0.0
  {
    c / (a * b)
  }

  /** The price at which a starting cash equal to the floor buys exactly one unit, floor ignored. */
  function FloorPrice(costs: CostModel): real
    requires Bounded(costs)
  {
    MulMono(1.0, 1.0 + costs.Penalty(), 1.0 + costs.Rate());
    OneUnitPrice(1.0 + costs.Rate(), 1.0 + costs.Penalty(), costs.commissionMin)
  }

  /** Two bars at FloorPrice, a starting cash equal to the floor, and a target of two units. */
  ghost function FloorMarket(costs: CostModel): Env<()>
    requires Bounded(costs)
  {
    var p := FloorPrice(costs);
    var bar := Bar(p, p, p, p, 0.0);
    TargetsEnv("S", [0, 1], [bar, bar], Config(costs.commissionMin, costs, NextBarOpen, false, false), [2.0, 2.0], None)
  }

  lemma FloorPriceIsOneUnit(costs: CostModel)
    requires Bounded(costs) && costs.commissionMin > 0.0
    ensures var p := FloorPrice(costs);
            var price := costs.FillPrice(p, Buy);
            && p > 0.0 && price > 0.0
            && PerUnit(price, costs.Rate()) == costs.commissionMin
            && 2.0 * price >= costs.commissionMin
  {
    var a, b, c := 1.0 + costs.Rate(), 1.0 + costs.Penalty(), costs.commissionMin;
    assert 1.0 <= a <= 2.0 && 1.0 <= b;
    var p := FloorPrice(costs);
    assert costs.FillPrice(p, Buy) == p * b;
    hide FloorPrice, OneUnitPrice, CostModel.FillPrice, CostModel.Rate, CostModel.Penalty;
    OneUnitAlgebra(a, b, c);
  }

  lemma OneUnitAlgebra(a: real, b: real, c: real)
    requires 1.0 <= a <= 2.0 && 1.0 <= b && 0.0 < c && a * b != 0.0
    ensures var p := OneUnitPrice(a, b, c); p > 0.0 && p * b > 0.0 && (p * b) * a == c && 2.0 * (p * b) >= c
  {
    var p, ab := OneUnitPrice(a, b, c), a * b;
    MulMono(1.0, a, b);
    assert ab >= 1.0;
    DivMul(c, ab);
    assert p * ab == c;
    hide OneUnitPrice;
    assert (p * b) * a == p * ab;
    if p <= 0.0 {
      MulMono(p, 0.0, ab);
    }
    MulMonoStrict(0.0, p, b);
    MulMono(a, 2.0, p * b);
  }

  lemma FloorOverdraws(costs: CostModel)
    requires Bounded(costs) && costs.commissionMin > 0.0
    ensures var env := FloorMarket(costs);
            && env.Valid() && |env.bars| == 2 && env.config.costs == costs && env.config.initialCash > 0.0
            && PositivePrices(env.bars)
            && CashAt(env, (), 1) < 0.0
  {
    hide Reached, ApplyFill;
    var env := FloorMarket(costs);
    var cash := costs.commissionMin;
    FloorPriceIsOneUnit(costs);
    var price := costs.FillPrice(FloorPrice(costs), Buy);
    RunIsSolo(env, (), 0);
    FirstBar(env, ());
    NextBar(env, (), 0);
    OrderFacts(env, (), 0);
    assert DecisionAt(env, (), 0).target == 2.0;
    hide Observe, DecisionAt, OrderAt, Solo;
    var order := OrderAt(env, (), 0).value;
    assert order.quantity == 2.0 && order.side == Buy;
    OneUnitBought(order, env.Market(1), env.config, price);
    var f := ExecutionAt(env, (), 0).fill;
    FilledCash(Reached(env, (), 0).portfolio, f, 1);
  }

  lemma AffordableOne(cash: real, price: real, rate: real)
    requires price > 0.0 && rate >= 0.0 && PerUnit(price, rate) == cash && cash > 0.0
    ensures MaxAffordable(cash, price, rate) == 1.0
  {
    assert cash / cash == 1.0;
    hide PerUnit;
  }

  lemma OneUnitBought(order: Order, market: MarketEvent, config: Config, price: real)
    requires order.quantity == 2.0 && order.side == Buy && order.timestamp == market.timestamp
    requires Bounded(config.costs) && config.executionModel == NextBarOpen
    requires price == config.costs.FillPrice(market.open, Buy) && price > 0.0
    requires PerUnit(price, config.costs.Rate()) == config.costs.commissionMin && 2.0 * price >= config.costs.commissionMin
    ensures var e := Execute(order, market, config, config.costs.commissionMin);
            e.Executed? && config.costs.commissionMin + e.fill.CashDelta() < 0.0
  {
    var costs, cash := config.costs, config.costs.commissionMin;
    PerUnitPositive(price, costs.Rate());
    assert Notional(2.0, price) == 2.0 * price && Notional(1.0, price) == price;
    CommissionParts(costs, Notional(2.0, price));
    CommissionParts(costs, Notional(1.0, price));
    AffordableOne(cash, price, costs.Rate());
    hide CostModel.FillPrice, CostModel.Commission, CostModel.Rate, MaxAffordable, Notional, PerUnit, FillEvent.CashDelta;
    var e := Execute(order, market, config, cash);
    assert e.Executed? && e.fill.quantity == 1.0 && e.fill.fillPrice == price && e.fill.side == Buy;
    CashDeltaBySide(e.fill);
  }

  lemma LiquidationCash<D>(env: Env<D>, p: Position)
    requires env.Valid() && Bounded(env.config.costs) && PositivePrices(env.bars) && !p.IsFlat()
    ensures var f := LiquidationFill(env, p);
            && (p.quantity > 0.0 ==> f.CashDelta() >= -env.config.costs.commissionMin)
            && (p.quantity < 0.0 ==> f.CashDelta() == -Notional(f.quantity, f.fillPrice) - f.commission)
  {
    var f := LiquidationFill(env, p);
    FillPriceSign(env.config.costs, f.referencePrice, f.side);
    NotionalSign(f.quantity, f.fillPrice);
    CommissionParts(env.config.costs, Notional(f.quantity, f.fillPrice));
    CashDeltaBySide(f);
    hide Notional, CostModel.FillPrice, CostModel.Commission, CostModel.Rate, FillEvent.CashDelta;
  }

  lemma FillOfLiquidation<D>(env: Env<D>, p: Position)
    requires env.Valid()
    ensures LiquidationFill(env, p).quantity >= 0.0
  {
  }

  /** The close-out of an open position moves cash by its fill. */
  lemma CloseOutCash<D>(env: Env<D>, memory: D)
    requires env.Valid() && env.config.liquidateAtEnd && QuantityAt(env, memory, |env.bars| - 1) != 0.0
    ensures var last := |env.bars| - 1;
            var p := Reached(env, memory, last).portfolio.PositionOf(env.symbol);
            Run(env, memory).portfolio.cash == CashAt(env, memory, last) + LiquidationFill(env, p).CashDelta()
  {
    hide Reached, LiquidationFill, FillEvent.CashDelta, Equity, ApplyFill;
    var last := |env.bars| - 1;
    OnePointPerBar(env, memory, last);
    var st := Reached(env, memory, last);
    var p := st.portfolio.PositionOf(env.symbol);
    FillOfLiquidation(env, p);
    FilledCash(st.portfolio, LiquidationFill(env, p), last);
  }

  /** What closing position p at the final close costs: commission and the gap to the close. */
  ghost function ClosingCost<D>(env: Env<D>, p: Position): real
    requires env.Valid()
  {
    if p.IsFlat() then 0.0 else LiquidationFill(env, p).TotalCost()
  }

  lemma ClosedAtCost(quantity: real, close: real, price: real, commission: real)
    requires quantity > 0.0 ==> price <= close
    requires quantity < 0.0 ==> price >= close
    ensures var size := Abs(quantity);
            (if quantity > 0.0 then size * price else -(size * price)) - commission ==
            quantity * close - (commission + Abs(price - close) * size)
  {
    var d := Abs(price - close);
    if quantity > 0.0 {
      assert d == close - price;
    } else if quantity < 0.0 {
      assert d == price - close;
    }
  }

  lemma AdversePrice(costs: CostModel, reference: real)
    requires costs.Valid() && reference >= 0.0
    ensures costs.FillPrice(reference, Sell) <= reference <= costs.FillPrice(reference, Buy)
  {
    assert costs.Penalty() >= 0.0;
    hide CostModel.Penalty;
    MulNonNegative(reference, costs.Penalty());
    assert reference * (1.0 - costs.Penalty()) == reference - reference * costs.Penalty();
    assert reference * (1.0 + costs.Penalty()) == reference + reference * costs.Penalty();
  }

  lemma LiquidationDelta<D>(env: Env<D>, p: Position)
    requires env.Valid() && env.config.costs.Valid() && env.bars[|env.bars| - 1].close >= 0.0 && !p.IsFlat()
    ensures LiquidationFill(env, p).CashDelta() == p.MarketValue(env.bars[|env.bars| - 1].close) - ClosingCost(env, p)
  {
    hide CostModel.FillPrice, CostModel.Commission;
    var f, close := LiquidationFill(env, p), env.bars[|env.bars| - 1].close;
    AdversePrice(env.config.costs, close);
    ClosedAtCost(p.quantity, close, f.fillPrice, f.commission);
    CashDeltaBySide(f);
  }

  /**
   * The close-out checks nothing: it leaves the equity marked at the final close less the cost of closing. So,
   * under any commission floor, its cash is non-negative exactly when that equity covers that cost.
   */
  lemma LiquidatedCash<D>(env: Env<D>, memory: D)
    requires env.Valid() && env.config.liquidateAtEnd && env.config.costs.Valid()
    requires env.bars[|env.bars| - 1].close >= 0.0
    ensures var last := |env.bars| - 1;
            var l, close := Reached(env, memory, last).portfolio, env.bars[last].close;
            var cost := ClosingCost(env, l.PositionOf(env.symbol));
            && Run(env, memory).portfolio.cash == Equity(l, map[env.symbol := close]) - cost
            && (Run(env, memory).portfolio.cash >= 0.0 <==> Equity(l, map[env.symbol := close]) >= cost)
  {
    hide Reached, LiquidationFill, FillEvent.CashDelta, Equity, ClosingCost, ApplyFill;
    var last := |env.bars| - 1;
    RunIsSolo(env, memory, last);
    OnePointPerBar(env, memory, last);
    var l := Reached(env, memory, last).portfolio;
    var p := l.PositionOf(env.symbol);
    SoloEquity(env.symbol, l, env.bars[last].close);
    if p.IsFlat() {
      FlatCostsNothing(env, p, env.bars[last].close);
    } else {
      CloseOutCash(env, memory);
      LiquidationDelta(env, p);
    }
  }

  lemma FlatCostsNothing<D>(env: Env<D>, p: Position, price: real)
    requires env.Valid() && p.IsFlat()
    ensures ClosingCost(env, p) == 0.0 && p.MarketValue(price) == 0.0
  {
  }

  /** When the position is not short, the close-out costs at most one more floor. */
  lemma LongCloseOutBound<D>(env: Env<D>, memory: D)
    requires env.Valid() && env.config.liquidateAtEnd
    requires Bounded(env.config.costs) && PositivePrices(env.bars) && env.config.initialCash > 0.0
    requires QuantityAt(env, memory, |env.bars| - 1) >= 0.0
    ensures Run(env, memory).portfolio.cash >= -(env.config.costs.commissionMin * |Run(env, memory).fills| as real)
  {
    hide Reached, LiquidationFill, FillEvent.CashDelta, Bounded;
    var last := |env.bars| - 1;
    CashBound(env, memory, last);
    LiquidatedRunEndsFlat(env, memory);
    BoundedFloor(env.config.costs);
    var st := Reached(env, memory, last);
    var p := st.portfolio.PositionOf(env.symbol);
    OneMoreFloor(env.config.costs.commissionMin, |st.fills|);
    if p.IsFlat() {
      StaysAsItIs(env, memory);
    } else {
      CloseOutCash(env, memory);
      LiquidationCash(env, p);
    }
  }

  lemma StaysAsItIs<D>(env: Env<D>, memory: D)
    requires env.Valid() && QuantityAt(env, memory, |env.bars| - 1) == 0.0
    ensures Run(env, memory).portfolio.cash == CashAt(env, memory, |env.bars| - 1)
  {
    hide Reached, LiquidationFill, Equity, ApplyFill;
    OnePointPerBar(env, memory, |env.bars| - 1);
  }

  /** Without a floor a run that does not end short is never overdrawn by its close-out. */
  lemma LongCloseOutSafe<D>(env: Env<D>, memory: D)
    requires env.Valid() && env.config.liquidateAtEnd
    requires Bounded(env.config.costs) && PositivePrices(env.bars) && env.config.initialCash > 0.0
    requires env.config.costs.commissionMin == 0.0 && QuantityAt(env, memory, |env.bars| - 1) >= 0.0
    ensures Run(env, memory).portfolio.cash >= 0.0
  {
    hide Run, QuantityAt;
    LongCloseOutBound(env, memory);
    assert 0.0 * |Run(env, memory).fills| as real == 0.0;
  }

  /** Two bars: 100 units sold short at 10, and covered by the close-out at 100; no costs at all. */
  ghost predicate ShortSqueeze(env: Env<()>) {
    && env.Valid() && |env.bars| == 2
    && env.bars[0] == Bar(10.0, 10.0, 10.0, 10.0, 0.0) && env.bars[1] == Bar(10.0, 100.0, 10.0, 100.0, 0.0)
    && env.config == Config(10.0, CostModel(0.0, 0.0, 0.0, 0.0), NextBarOpen, true, true)
    && forall o: Observation :: o.bar == 0 ==> env.decide((), o).target == -100.0
  }

  lemma SqueezeExists(symbol: string)
    ensures ShortSqueeze(TargetsEnv(symbol, [0, 1],
                                    [Bar(10.0, 10.0, 10.0, 10.0, 0.0), Bar(10.0, 100.0, 10.0, 100.0, 0.0)],
                                    Config(10.0, CostModel(0.0, 0.0, 0.0, 0.0), NextBarOpen, true, true),
                                    [-100.0, -100.0], None))
  {
  }

  lemma SqueezeFill(order: Order, market: MarketEvent, config: Config)
    requires order.timestamp == market.timestamp && order.side == Sell && order.quantity == 100.0
    requires config.costs == CostModel(0.0, 0.0, 0.0, 0.0) && config.executionModel == NextBarOpen && market.open == 10.0
    ensures var e := Execute(order, market, config, 10.0);
            && e.Executed? && e.fill.SignedQuantity() == -100.0 && e.fill.quantity == 100.0
            && e.fill.CashDelta() == 1000.0 && e.fill.symbol == order.symbol
  {
  }

  lemma SqueezeShort(env: Env<()>)
    requires ShortSqueeze(env)
    ensures CashAt(env, (), 1) == 1010.0 && QuantityAt(env, (), 1) == -100.0
  {
    RunIsSolo(env, (), 0);
    FirstBar(env, ());
    NextBar(env, (), 0);
    OrderFacts(env, (), 0);
    assert DecisionAt(env, (), 0).target == -100.0;
    var l := Reached(env, (), 0).portfolio;
    SqueezeFill(OrderAt(env, (), 0).value, env.Market(1), env.config);
    hide Reached, Observe, DecisionAt, OrderAt, ApplyFill, Filled, FillEvent.CashDelta, FillEvent.SignedQuantity;
    var f := ExecutionAt(env, (), 0).fill;
    FilledCash(l, f, 1);
    FillKeepsSolo(env.symbol, l, f, 1);
    QuantityMoves(EmptyPosition(env.symbol), f, 1);
  }

  lemma SqueezeCover(env: Env<()>, p: Position)
    requires ShortSqueeze(env) && p.quantity == -100.0
    ensures LiquidationFill(env, p).CashDelta() == -10000.0
  {
    var g := LiquidationFill(env, p);
    assert g.side == Buy && g.quantity == 100.0 && g.fillPrice == 100.0 && g.commission == 0.0;
  }

  /** Without any costs, the close-out of a short leaves such an account 8990 below zero. */
  lemma ShortCloseOutOverdraws(env: Env<()>)
    requires ShortSqueeze(env)
    ensures CashAt(env, (), 1) == 1010.0 && Run(env, ()).portfolio.cash == -8990.0
  {
    hide Reached, Run, LiquidationFill, FillEvent.CashDelta;
    SqueezeShort(env);
    CloseOutCash(env, ());
    SqueezeCover(env, Reached(env, (), 1).portfolio.PositionOf(env.symbol));
  }
}
