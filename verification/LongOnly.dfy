/** Long-only safety: with shorting off and default sizing, quantity, cash and equity never go negative. */
module LongOnly {
  import opened Prelude
  import opened RealMath
  import opened Events
  import opened Ledger
  import opened FillLaws
  import opened Engine
  import opened Steps
  import opened RunLaws
  import opened Cash
  import opened Simulation

  /** A buy on top of a long or flat position adds; a sale of no more than is held leaves between nothing and what was held. */
  lemma LongFill(p: Position, f: FillEvent, bar: int)
    requires p.quantity >= 0.0 && f.quantity > 0.0
    requires f.side == Sell ==> f.quantity <= p.quantity
    ensures f.side == Buy ==> Filled(p, f, bar).position.quantity == p.quantity + f.quantity
    ensures f.side == Sell ==> 0.0 <= Filled(p, f, bar).position.quantity <= p.quantity
  {
    SignedSize(f);
    QuantityMoves(p, f, bar);
    if f.side == Sell {
      RemainingBySide(p, f);
    }
    hide Filled, FillEvent.SignedQuantity;
  }

  lemma DefaultUnitsNonNegative(equity: real, strength: real, price: real)
    requires equity >= 0.0 && price > 0.0
    ensures DefaultUnits(equity, strength, price) >= 0
  {
    var k := Min(Max(strength, 0.0), 1.0);
    MulNonNegative(equity, DEFAULT_ALLOCATION);
    MulNonNegative(equity * DEFAULT_ALLOCATION, k);
    QuotientSign(equity * DEFAULT_ALLOCATION * k, price);
  }

  /** Default sizing is non-negative unless the direction is short. */
  lemma DefaultSizeNonNegative(c: SizingContext)
    requires c.equity >= 0.0 && c.direction != SHORT
    ensures DefaultSize(c) >= 0.0
  {
    if c.direction == LONG && c.price > 0.0 {
      DefaultUnitsNonNegative(c.equity, c.strength, c.price);
      hide DefaultUnits;
    }
  }

  /** Whatever the signals and exits say, a long-only decision never asks for a negative position. */
  lemma LongOnlyTarget(strategy: Strategy, signals: SignalSet, suppressed: Option<SignalDirection>, o: Observation)
    requires SizesByDefault(strategy)
    requires o.position.quantity >= 0.0 && o.equity >= 0.0
    ensures SignalDecision(strategy, signals, false, suppressed, o).target >= 0.0
  {
    var effective := EffectiveDirection(signals, false, o.bar);
    var direction := if suppressed == Some(effective) then FLAT else effective;
    var c := SizingContextOf(signals, direction, o);
    DefaultSizeNonNegative(c);
    hide DefaultSize, ExitContextOf;
  }

  /** The joint invariant of a long-only run. */
  ghost predicate Solvent(symbol: string, l: Portfolio) {
    l.PositionOf(symbol).quantity >= 0.0 && l.cash >= 0.0
  }

  lemma SolventEquity(symbol: string, l: Portfolio, price: real)
    requires Solo(symbol, l) && Solvent(symbol, l) && price > 0.0
    ensures Equity(l, map[symbol := price]) >= 0.0
  {
    SoloEquity(symbol, l, price);
    MulNonNegative(l.PositionOf(symbol).quantity, price);
    hide Equity;
  }

  ghost predicate LongOnlyEnv(env: Env<Option<SignalDirection>>, strategy: Strategy, signals: SignalSet) {
    && env.Valid()
    && env == SignalsEnv(env.symbol, env.index, env.bars, env.config, strategy, signals)
    && !env.config.allowShort
    && Bounded(env.config.costs) && env.config.costs.commissionMin == 0.0
    && PositivePrices(env.bars) && env.config.initialCash > 0.0
    && SizesByDefault(strategy)
  }

  lemma LongOnlyDecision(env: Env<Option<SignalDirection>>, strategy: Strategy, signals: SignalSet, i: nat)
    requires LongOnlyEnv(env, strategy, signals) && i < |env.bars|
    requires Solo(env.symbol, Reached(env, None, i).portfolio) && Solvent(env.symbol, Reached(env, None, i).portfolio)
    ensures DecisionAt(env, None, i).target >= 0.0
  {
    var st := Reached(env, None, i);
    SolventEquity(env.symbol, st.portfolio, env.bars[i].close);
    var o := Observe(env, st, i);
    LongOnlyTarget(strategy, signals, st.memory, o);
    assert env.decide(st.memory, o) == SignalDecision(strategy, signals, false, st.memory, o);
  }

  /**
   * Long-only safety, for any signals and any exits: at every bar the position is not short,
   * cash is not overdrawn and equity is not negative.
   */
  lemma LongOnlySafety(env: Env<Option<SignalDirection>>, strategy: Strategy, signals: SignalSet, i: nat)
    requires LongOnlyEnv(env, strategy, signals) && i < |env.bars|
    ensures QuantityAt(env, None, i) >= 0.0 && CashAt(env, None, i) >= 0.0
    ensures Equity(Reached(env, None, i).portfolio, map[env.symbol := env.bars[i].close]) >= 0.0
  {
    hide Reached, Equity;
    LongOnlyQuantity(env, strategy, signals, i);
    RunIsSolo(env, None, i);
    CashNeverNegative(env, None, i);
    SolventEquity(env.symbol, Reached(env, None, i).portfolio, env.bars[i].close);
  }

  lemma {:induction false} LongOnlyQuantity(env: Env<Option<SignalDirection>>, strategy: Strategy, signals: SignalSet, i: nat)
    requires LongOnlyEnv(env, strategy, signals) && i < |env.bars|
    ensures QuantityAt(env, None, i) >= 0.0
  {
    hide Reached, CashAt, SizesByDefault, SignalsEnv;
    if i == 0 {
      FirstBar(env, None);
    } else {
      LongOnlyQuantity(env, strategy, signals, i - 1);
      CashNeverNegative(env, None, i - 1);
      LongOnlyStep(env, strategy, signals, i - 1);
    }
  }

  lemma LongOnlyStep(env: Env<Option<SignalDirection>>, strategy: Strategy, signals: SignalSet, j: nat)
    requires LongOnlyEnv(env, strategy, signals) && j + 1 < |env.bars|
    requires QuantityAt(env, None, j) >= 0.0 && CashAt(env, None, j) >= 0.0
    ensures QuantityAt(env, None, j + 1) >= 0.0
  {
    hide Reached, Execute, ApplyFill, Filled, OrderAt;
    RunIsSolo(env, None, j);
    LongOnlyDecision(env, strategy, signals, j);
    NextBar(env, None, j);
    hide LongOnlyEnv, DecisionAt;
    OrderFacts(env, None, j);
    var order := OrderAt(env, None, j);
    if order.Some? && ExecutionAt(env, None, j).Executed? {
      var l, f := Reached(env, None, j).portfolio, ExecutionAt(env, None, j).fill;
      ExecuteFacts(order.value, env.Market(j + 1), env.config, CashAt(env, None, j));
      SellsInFull(order.value, env.Market(j + 1), env.config, CashAt(env, None, j));
      FillKeepsSolo(env.symbol, l, f, j + 1);
      LongFill(l.PositionOf(env.symbol), f, j + 1);
    }
  }

  /** A sell is never cut. */
  lemma SellsInFull(order: Order, market: MarketEvent, config: Config, cash: real)
    requires order.timestamp == market.timestamp
    ensures var e := Execute(order, market, config, cash);
            order.side == Sell ==> e.Executed? && e.warnings == [] && e.fill.quantity == order.quantity
  {
    hide CostModel.FillPrice, CostModel.Commission, MaxAffordable, Notional;
  }

  /** The close-out of a long-only run leaves it flat with non-negative cash, which is its last equity point. */
  lemma LongOnlyEnd(env: Env<Option<SignalDirection>>, strategy: Strategy, signals: SignalSet)
    requires LongOnlyEnv(env, strategy, signals) && env.config.liquidateAtEnd
    ensures var run := Run(env, None);
            run.portfolio.cash >= 0.0 && run.portfolio.PositionOf(env.symbol).IsFlat()
  {
    hide Run, Reached, LiquidationFill;
    var last := |env.bars| - 1;
    LongOnlySafety(env, strategy, signals, last);
    LongCloseOutSafe(env, None);
    LiquidatedRunEndsFlat(env, None);
  }
}
