/**
 * A commission floor defeats exit suppression: a cover that cash cannot pay for is "reduced" to more than
 * was ordered, the position turns round, and the exit that follows forgets the direction exited first.
 */
module Whipsaw {
  import opened Prelude
  import opened RealMath
  import opened Events
  import opened Ledger
  import opened Engine
  import opened Steps
  import opened Cash
  import opened Simulation
  import opened Suppression
  import opened Tracking
  import opened LongOnly

  /** The price whose buy price is QuarterPrice. */
  function Price(costs: CostModel): real
    requires costs.Valid()
  {
    QuarterPrice(costs) / (1.0 + costs.Penalty())
  }

  function ShortCommission(costs: CostModel): real
    requires costs.Valid()
  {
    costs.Commission(Notional(1.0, costs.FillPrice(Price(costs), Sell)))
  }

  /** The cash that leaves exactly the commission floor after shorting one unit. */
  function StartingCash(costs: CostModel): real
    requires costs.Valid()
  {
    costs.commissionMin + ShortCommission(costs) - Notional(1.0, costs.FillPrice(Price(costs), Sell))
  }

  /** Four equal bars, a signal that is short throughout, one unit at a time, and an exit whenever a position is open. */
  ghost predicate Whipsaws(env: Env<Option<SignalDirection>>, strategy: Strategy, signals: SignalSet, costs: CostModel) {
    && env.Valid() && SignalRun(env, strategy, signals) && |env.bars| == 4
    && costs.Valid() && costs.commissionMin > 0.0 && env.config.costs == costs
    && env.config.allowShort && env.config.initialCash == StartingCash(costs)
    && (forall i :: 0 <= i < 4 ==> env.bars[i].open == Price(costs) && env.bars[i].close == Price(costs))
    && (forall i: nat :: i < 4 ==> RowAt(signals, i).direction == SHORT)
    && (forall c: SizingContext :: strategy.positionSize(c) == c.direction.Sign() as real)
    && (forall c: ExitContext :: strategy.exitSignal(c).shouldExit)
  }

  function WhipsawStrategy(): Strategy {
    Strategy((c: SizingContext) => c.direction.Sign() as real, (c: ExitContext) => ExitDecision(true, "out"), false)
  }

  function WhipsawSignals(): SignalSet {
    SignalSet(seq(4, _ => SignalRow(SHORT, 1.0, "")), seq(4, _ => map[]))
  }

  function WhipsawEnv(costs: CostModel): Env<Option<SignalDirection>>
    requires costs.Valid()
  {
    var p := Price(costs);
    SignalsEnv("S", [0, 1, 2, 3], seq(4, _ => Bar(p, p, p, p, 0.0)),
               Config(StartingCash(costs), costs, NextBarOpen, true, false), WhipsawStrategy(), WhipsawSignals())
  }

  lemma WhipsawExists(costs: CostModel)
    requires costs.Valid() && costs.commissionMin > 0.0
    ensures Whipsaws(WhipsawEnv(costs), WhipsawStrategy(), WhipsawSignals(), costs)
    ensures StartingCash(costs) > 0.0 && Price(costs) > 0.0
  {
    PricesFit(costs);
    hide Price, StartingCash;
  }

  lemma PricesFit(costs: CostModel)
    requires costs.Valid() && costs.commissionMin > 0.0
    ensures Price(costs) > 0.0 && costs.FillPrice(Price(costs), Buy) == QuarterPrice(costs)
    ensures StartingCash(costs) > 0.0
  {
    var c, k, q, p := costs.commissionMin, 1.0 + costs.Penalty(), QuarterPrice(costs), Price(costs);
    QuarterPriceIsQuarter(costs);
    assert costs.Penalty() >= 0.0 && costs.Rate() >= 0.0;
    hide QuarterPrice, CostModel.Penalty, CostModel.Rate;
    DivMul(q, k);
    PositiveFactor(p, k, q);
    PerUnitPositive(q, costs.Rate());
    assert q < c;
    SellBelowReference(p, costs.Penalty());
    MulMono(1.0, k, p);
    hide PerUnit;
    assert costs.FillPrice(p, Sell) == p * (1.0 - costs.Penalty()) <= p <= q;
  }

  lemma PositiveFactor(p: real, k: real, q: real)
    requires p * k == q > 0.0 && k > 0.0
    ensures p > 0.0
  {
    if p <= 0.0 {
      MulMono(p, 0.0, k);
    }
  }

  lemma SellBelowReference(p: real, penalty: real)
    requires p > 0.0 && penalty >= 0.0
    ensures p * (1.0 - penalty) <= p
  {
    MulMono(1.0 - penalty, 1.0, p);
  }

  /** What the strategy decides: out of any position, and short again from flat unless SHORT is remembered. */
  lemma Decides(env: Env<Option<SignalDirection>>, strategy: Strategy, signals: SignalSet, costs: CostModel, k: nat)
    requires Whipsaws(env, strategy, signals, costs) && k < 4
    ensures QuantityAt(env, None, k) != 0.0 ==>
              && ExitsAt(env, strategy, signals, k)
              && DecisionAt(env, None, k).target == 0.0
              && DecisionAt(env, None, k).memory == Some(DirectionOf(QuantityAt(env, None, k)))
    ensures QuantityAt(env, None, k) == 0.0 && Reached(env, None, k).memory != Some(SHORT) ==>
              && DecisionAt(env, None, k).target == -1.0 && DecisionAt(env, None, k).memory == None
    ensures EffectiveDirection(signals, true, k) == SHORT
  {
    hide Reached, Observe, ExitContextOf, IndicatorsAt, ContractOf, Price, StartingCash;
    DecisionIsSignalDecision(env, strategy, signals, k);
  }

  /** Bar 1: one unit short, with cash equal to the floor. */
  lemma GoesShort(env: Env<Option<SignalDirection>>, strategy: Strategy, signals: SignalSet, costs: CostModel)
    requires Whipsaws(env, strategy, signals, costs)
    ensures QuantityAt(env, None, 1) == -1.0 && CashAt(env, None, 1) == costs.commissionMin
  {
    hide Reached, SignalRun, DecisionAt, ApplyFill, Price, OrderAt, Solo, CostModel.FillPrice, CostModel.Commission, Notional;
    FirstBar(env, None);
    Decides(env, strategy, signals, costs, 0);
    WholeInt(0);
    WholeInt(-1);
    SoldNext(env, 0, 1.0);
    var f := ExecutionAt(env, None, 0).fill;
    assert f.referencePrice == Price(costs);
    CashDeltaBySide(f);
  }

  /** A whole sale is filled in full at the bar's price. */
  lemma SoldNext(env: Env<Option<SignalDirection>>, k: nat, size: real)
    requires env.Valid() && k + 1 < |env.bars| && env.config.costs.Valid() && size >= 1.0
    requires Whole(QuantityAt(env, None, k)) && Whole(DecisionAt(env, None, k).target)
    requires DecisionAt(env, None, k).target - QuantityAt(env, None, k) == -size
    ensures OrderAt(env, None, k).Some? && ExecutionAt(env, None, k).Executed?
    ensures var f := ExecutionAt(env, None, k).fill;
            && f.side == Sell && f.quantity == size
            && f.referencePrice == env.config.executionModel.PriceOf(env.Market(k + 1))
            && f.fillPrice == env.config.costs.FillPrice(f.referencePrice, Sell)
            && f.commission == env.config.costs.Commission(Notional(size, f.fillPrice))
            && QuantityAt(env, None, k + 1) == QuantityAt(env, None, k) - size
            && CashAt(env, None, k + 1) == CashAt(env, None, k) + f.CashDelta()
    ensures Reached(env, None, k + 1).memory == DecisionAt(env, None, k).memory
  {
    hide Reached, DecisionAt, Execute, ApplyFill, OrderAt, Solo, Whole, CostModel.FillPrice, CostModel.Commission, Notional, FillEvent.CashDelta;
    RunIsSolo(env, None, k);
    NextBar(env, None, k);
    OrderFacts(env, None, k);
    var order, cash := OrderAt(env, None, k).value, CashAt(env, None, k);
    SellsInFull(order, env.Market(k + 1), env.config, cash);
    ExecuteFacts(order, env.Market(k + 1), env.config, cash);
    ExecutedMoves(env, None, k);
    FilledCash(Reached(env, None, k).portfolio, ExecutionAt(env, None, k).fill, k + 1);
  }

  /** Bar 2: covering the one unit is "reduced" to four, and the position is three units long. */
  lemma Overshoots(env: Env<Option<SignalDirection>>, strategy: Strategy, signals: SignalSet, costs: CostModel)
    requires Whipsaws(env, strategy, signals, costs)
    ensures QuantityAt(env, None, 2) == 3.0
    ensures Reached(env, None, 2).memory == Some(SHORT)
  {
    hide Reached, SignalRun, DecisionAt, Execute, ApplyFill, Price, StartingCash, OrderAt, Solo, Whole, QuarterPrice;
    hide CostModel.FillPrice, CostModel.Commission, Notional, MaxAffordable, CanAfford;
    GoesShort(env, strategy, signals, costs);
    Decides(env, strategy, signals, costs, 1);
    PricesFit(costs);
    FloorInflatesCut(costs, costs.commissionMin);
    WholeInt(-1);
    WholeInt(0);
    RunIsSolo(env, None, 1);
    NextBar(env, None, 1);
    OrderFacts(env, None, 1);
    var order := OrderAt(env, None, 1).value;
    CutToFour(order, env.Market(2), env.config);
    ExecutedMoves(env, None, 1);
  }

  lemma CutToFour(order: Order, market: MarketEvent, config: Config)
    requires order.timestamp == market.timestamp && order.side == Buy && order.quantity == 1.0
    requires config.costs.Valid() && config.costs.commissionMin > 0.0
    requires config.costs.FillPrice(config.executionModel.PriceOf(market), Buy) == QuarterPrice(config.costs)
    ensures var e := Execute(order, market, config, config.costs.commissionMin); e.Executed? && e.fill.quantity == 4.0
  {
    hide QuarterPrice, CostModel.FillPrice, CostModel.Commission, Notional, MaxAffordable, CanAfford;
    FloorInflatesCut(config.costs, config.costs.commissionMin);
  }

  /**
   * The whole run: out at bar 1, long three units at bar 2, flat at bar 3, and there short again, although
   * the signal never changed: the position grew past flat, and a target after the exit is not zero.
   */
  lemma FloorReenters(env: Env<Option<SignalDirection>>, strategy: Strategy, signals: SignalSet, costs: CostModel)
    requires Whipsaws(env, strategy, signals, costs)
    ensures ExitsAt(env, strategy, signals, 1) && Unchanged(env, strategy, signals, 1, 3)
    ensures QuantityAt(env, None, 1) == -1.0 && QuantityAt(env, None, 2) == 3.0 && QuantityAt(env, None, 3) == 0.0
    ensures DecisionAt(env, None, 3).target == -1.0
  {
    hide Reached, SignalRun, DecisionAt, ExitsAt, Price, StartingCash, Whole;
    GoesShort(env, strategy, signals, costs);
    Decides(env, strategy, signals, costs, 1);
    Overshoots(env, strategy, signals, costs);
    Decides(env, strategy, signals, costs, 2);
    WholeInt(3);
    WholeInt(0);
    SoldNext(env, 2, 3.0);
    Decides(env, strategy, signals, costs, 3);
  }

  /** No signals, sizing, exits, prices or cash break exit suppression under these costs. */
  ghost predicate AlwaysSuppresses(costs: CostModel) {
    forall env: Env<Option<SignalDirection>>, strategy: Strategy, signals: SignalSet, i: nat, j: nat ::
      SignalRun(env, strategy, signals) && env.config.costs == costs && env.config.initialCash > 0.0 && i <= j < |env.bars| &&
      ExitsAt(env, strategy, signals, i) && Unchanged(env, strategy, signals, i, j)
      ==> StaysOut(env, i, j)
  }

  /** Exit suppression holds on every run exactly when the cost model has no commission floor. */
  lemma SuppressionNeedsNoFloor(costs: CostModel)
    requires costs.Valid()
    ensures AlwaysSuppresses(costs) <==> costs.commissionMin == 0.0
  {
    hide ExitsAt, Unchanged, Reached, Price, StartingCash;
    if costs.commissionMin == 0.0 {
      forall env: Env<Option<SignalDirection>>, strategy: Strategy, signals: SignalSet, i: nat, j: nat
        | SignalRun(env, strategy, signals) && env.config.costs == costs && env.config.initialCash > 0.0 && i <= j < |env.bars| &&
          ExitsAt(env, strategy, signals, i) && Unchanged(env, strategy, signals, i, j)
        ensures StaysOut(env, i, j)
      {
        ExitSuppresses(env, strategy, signals, i, j);
      }
    } else {
      var env, strategy, signals := WhipsawEnv(costs), WhipsawStrategy(), WhipsawSignals();
      WhipsawExists(costs);
      FloorReenters(env, strategy, signals, costs);
      assert !StaysOut(env, 1, 3);
    }
  }
}
