/** After a discretionary exit the engine stays out until the signal itself changes its mind. */
module Suppression {
  import opened Prelude
  import opened RealMath
  import opened Events
  import opened Ledger
  import opened FillLaws
  import opened Engine
  import opened Steps
  import opened Simulation
  import opened Tracking

  /** Sizing that asks for nothing when the direction is flat, as the default does. */
  ghost predicate FlatMeansZero(strategy: Strategy) {
    forall c: SizingContext :: c.direction == FLAT ==> strategy.positionSize(c) == 0.0
  }

  /** The memory after a decision, and what a remembered direction does to the target. */
  lemma SuppressedTarget(strategy: Strategy, signals: SignalSet, allowShort: bool,
                         memory: Option<SignalDirection>, o: Observation)
    requires FlatMeansZero(strategy)
    ensures var decision := SignalDecision(strategy, signals, allowShort, memory, o);
            && (decision.memory.Some? ==> decision.target == 0.0)
            && decision.memory ==
               if Exits(strategy, signals, o) then Some(DirectionOf(o.position.quantity))
               else if memory == Some(EffectiveDirection(signals, allowShort, o.bar)) then memory
               else None
  {
    hide ExitContextOf, SizingContextOf;
    var effective := EffectiveDirection(signals, allowShort, o.bar);
    var c := SizingContextOf(signals, FLAT, o);
    assert c.direction == FLAT by { FlatContext(signals, o); }
  }

  lemma FlatContext(signals: SignalSet, o: Observation)
    ensures SizingContextOf(signals, FLAT, o).direction == FLAT
  {
  }

  ghost predicate SignalRun(env: Env<Option<SignalDirection>>, strategy: Strategy, signals: SignalSet) {
    && env.Valid()
    && env == SignalsEnv(env.symbol, env.index, env.bars, env.config, strategy, signals)
    && FlatMeansZero(strategy)
  }

  /** What the decision of bar k sees. */
  ghost function SeenAt(env: Env<Option<SignalDirection>>, k: nat): Observation
    requires env.Valid() && k < |env.bars|
  {
    Observe(env, Reached(env, None, k), k)
  }

  ghost predicate ExitsAt(env: Env<Option<SignalDirection>>, strategy: Strategy, signals: SignalSet, k: nat)
    requires env.Valid() && k < |env.bars|
  {
    Exits(strategy, signals, SeenAt(env, k))
  }

  lemma DecisionIsSignalDecision(env: Env<Option<SignalDirection>>, strategy: Strategy, signals: SignalSet, k: nat)
    requires SignalRun(env, strategy, signals) && k < |env.bars|
    ensures DecisionAt(env, None, k) ==
            SignalDecision(strategy, signals, env.config.allowShort, Reached(env, None, k).memory, SeenAt(env, k))
    ensures SeenAt(env, k).position.quantity == QuantityAt(env, None, k) && SeenAt(env, k).bar == k
  {
    hide Reached, SignalDecision;
  }

  /** Neither growing nor changing sides. */
  predicate Shrinks(q: real, q': real) {
    || (q >= 0.0 && 0.0 <= q' <= q)
    || (q <= 0.0 && q <= q' <= 0.0)
  }

  lemma ShrinkingFill(p: Position, f: FillEvent, bar: int)
    requires f.quantity > 0.0 && f.quantity <= Abs(p.quantity)
    requires f.side == if p.quantity > 0.0 then Sell else Buy
    ensures Shrinks(p.quantity, Filled(p, f, bar).position.quantity)
  {
    SignedSize(f);
    QuantityMoves(p, f, bar);
    RemainingBySide(p, f);
    hide Filled, FillEvent.SignedQuantity;
  }

  /** No commission floor. */
  predicate NoFloor(costs: CostModel) {
    costs.Valid() && costs.commissionMin == 0.0
  }

  /** A zero target shrinks the position, or leaves it when cash does not allow covering it. */
  lemma ZeroTargetShrinks<D>(env: Env<D>, memory: D, k: nat)
    requires env.Valid() && k + 1 < |env.bars| && DecisionAt(env, memory, k).target == 0.0
    requires NoFloor(env.config.costs)
    ensures Shrinks(QuantityAt(env, memory, k), QuantityAt(env, memory, k + 1))
  {
    hide Reached, Execute, ApplyFill, Filled, OrderAt, Solo, DecisionAt, PerUnit;
    RunIsSolo(env, memory, k);
    NextBar(env, memory, k);
    OrderFacts(env, memory, k);
    var l := Reached(env, memory, k).portfolio;
    match OrderAt(env, memory, k)
    case None =>
    case Some(order) =>
      var e := ExecutionAt(env, memory, k);
      ExecuteFacts(order, env.Market(k + 1), env.config, l.cash);
      if e.Executed? {
        if e.warnings != [] {
          ReducedAmount(order, env.Market(k + 1), env.config, l.cash);
        }
        SoloIsTidy(env.symbol, l);
        FillKeepsSolo(env.symbol, l, e.fill, k + 1);
        ShrinkingFill(l.PositionOf(env.symbol), e.fill, k + 1);
      }
  }

  /** From bar i to bar j, every bar either exits again or still signals the direction that was exited. */
  ghost predicate Unchanged(env: Env<Option<SignalDirection>>, strategy: Strategy, signals: SignalSet, i: nat, j: nat)
    requires env.Valid() && i <= j < |env.bars|
  {
    var exited := DirectionOf(QuantityAt(env, None, i));
    forall k: nat :: i < k <= j ==>
      ExitsAt(env, strategy, signals, k) || EffectiveDirection(signals, env.config.allowShort, k) == exited
  }

  /** From bar i to bar j the position is flat or on the side it had at bar i. */
  ghost predicate SideKept(env: Env<Option<SignalDirection>>, i: nat, j: nat)
    requires env.Valid() && i <= j < |env.bars|
  {
    forall k: nat :: i < k <= j ==>
      QuantityAt(env, None, k) == 0.0 || DirectionOf(QuantityAt(env, None, k)) == DirectionOf(QuantityAt(env, None, i))
  }

  /**
   * After an exit at bar i, while the signal has not changed its mind and the position has not changed sides,
   * every target is zero and the exited direction stays remembered: whatever the costs, prices and cash.
   */
  lemma {:induction false} ExitIsRemembered(env: Env<Option<SignalDirection>>, strategy: Strategy, signals: SignalSet, i: nat, j: nat)
    requires SignalRun(env, strategy, signals) && i <= j < |env.bars|
    requires ExitsAt(env, strategy, signals, i) && Unchanged(env, strategy, signals, i, j) && SideKept(env, i, j)
    ensures DecisionAt(env, None, j).target == 0.0
    ensures DecisionAt(env, None, j).memory == Some(DirectionOf(QuantityAt(env, None, i)))
    decreases j - i
  {
    hide Reached, SignalDecision, Exits, EffectiveDirection, SeenAt, Observe, ApplyFill, Execute, OrderAt, Solo, DirectionOf;
    DecisionIsSignalDecision(env, strategy, signals, j);
    SuppressedTarget(strategy, signals, env.config.allowShort, Reached(env, None, j).memory, SeenAt(env, j));
    if i < j {
      ExitIsRemembered(env, strategy, signals, i, j - 1);
      RunIsSolo(env, None, j - 1);
      NextBar(env, None, j - 1);
      DecisionIsSignalDecision(env, strategy, signals, i);
      ExitsWhenOpen(strategy, signals, SeenAt(env, j));
    }
  }

  /** Without a commission floor the position only shrinks towards flat, so it never changes sides. */
  lemma {:induction false} NoFloorKeepsSide(env: Env<Option<SignalDirection>>, strategy: Strategy, signals: SignalSet, i: nat, j: nat)
    requires SignalRun(env, strategy, signals) && i <= j < |env.bars| && NoFloor(env.config.costs)
    requires ExitsAt(env, strategy, signals, i) && Unchanged(env, strategy, signals, i, j)
    ensures SideKept(env, i, j)
    ensures Shrinks(QuantityAt(env, None, i), QuantityAt(env, None, j))
    decreases j - i
  {
    hide Reached, DecisionAt, ExitsAt, EffectiveDirection, QuantityAt;
    if i < j {
      NoFloorKeepsSide(env, strategy, signals, i, j - 1);
      ExitIsRemembered(env, strategy, signals, i, j - 1);
      ZeroTargetShrinks(env, None, j - 1);
    }
  }

  /** What suppression promises of bar j, after an exit at bar i. */
  ghost predicate StaysOut(env: Env<Option<SignalDirection>>, i: nat, j: nat)
    requires env.Valid() && i <= j < |env.bars|
  {
    && DecisionAt(env, None, j).target == 0.0
    && DecisionAt(env, None, j).memory == Some(DirectionOf(QuantityAt(env, None, i)))
    && Shrinks(QuantityAt(env, None, i), QuantityAt(env, None, j))
  }

  /**
   * Exit suppression. Without a commission floor, after an exit at bar i and while the signal has not changed
   * its mind, every target is zero, the exited direction stays remembered and the position only shrinks,
   * into the next bar as well. Module Whipsaw shows that a floor breaks it.
   */
  lemma ExitSuppresses(env: Env<Option<SignalDirection>>, strategy: Strategy, signals: SignalSet, i: nat, j: nat)
    requires SignalRun(env, strategy, signals) && i <= j < |env.bars| && NoFloor(env.config.costs)
    requires ExitsAt(env, strategy, signals, i) && Unchanged(env, strategy, signals, i, j)
    ensures StaysOut(env, i, j)
    ensures j + 1 < |env.bars| ==> Shrinks(QuantityAt(env, None, j), QuantityAt(env, None, j + 1))
  {
    hide Reached, DecisionAt, ExitsAt, EffectiveDirection, QuantityAt, SideKept, Unchanged, Shrinks, DirectionOf;
    NoFloorKeepsSide(env, strategy, signals, i, j);
    ExitIsRemembered(env, strategy, signals, i, j);
    if j + 1 < |env.bars| {
      ZeroTargetShrinks(env, None, j);
    }
  }

  lemma ExitsWhenOpen(strategy: Strategy, signals: SignalSet, o: Observation)
    ensures Exits(strategy, signals, o) ==> o.position.quantity != 0.0
  {
  }

  lemma OtherDirectionForgets(strategy: Strategy, signals: SignalSet, allowShort: bool, d: SignalDirection, o: Observation)
    requires !Exits(strategy, signals, o) && EffectiveDirection(signals, allowShort, o.bar) != d
    ensures var decision := SignalDecision(strategy, signals, allowShort, Some(d), o);
            decision == SignalDecision(strategy, signals, allowShort, None, o) && decision.memory == None
  {
    hide Exits, EffectiveDirection, SizingContextOf, ExitContextOf;
  }

  /** The first bar that neither exits nor signals the exited direction lifts the suppression. */
  lemma SignalChangeReleases(env: Env<Option<SignalDirection>>, strategy: Strategy, signals: SignalSet, i: nat, j: nat)
    requires SignalRun(env, strategy, signals) && i < j < |env.bars|
    requires ExitsAt(env, strategy, signals, i) && Unchanged(env, strategy, signals, i, j - 1)
    requires NoFloor(env.config.costs) || SideKept(env, i, j - 1)
    requires !ExitsAt(env, strategy, signals, j)
    requires EffectiveDirection(signals, env.config.allowShort, j) != DirectionOf(QuantityAt(env, None, i))
    ensures DecisionAt(env, None, j).memory == None
    ensures DecisionAt(env, None, j) == SignalDecision(strategy, signals, env.config.allowShort, None, SeenAt(env, j))
  {
    hide Reached, Exits, EffectiveDirection, SeenAt, Observe, ApplyFill, Execute, OrderAt, Solo, SignalDecision;
    if NoFloor(env.config.costs) {
      NoFloorKeepsSide(env, strategy, signals, i, j - 1);
    }
    ExitIsRemembered(env, strategy, signals, i, j - 1);
    RunIsSolo(env, None, j - 1);
    NextBar(env, None, j - 1);
    DecisionIsSignalDecision(env, strategy, signals, j);
    OtherDirectionForgets(strategy, signals, env.config.allowShort, DirectionOf(QuantityAt(env, None, i)), SeenAt(env, j));
  }
}
