/** What the engine decides from a bar's signal, and what the hooks of a strategy get to see. */
module Decisions {
  import opened Prelude
  import opened RealMath
  import opened Ledger
  import opened Engine
  import opened Steps
  import opened Cash
  import opened Simulation
  import opened Suppression
  import opened WholeUnits
  import opened Tracking

  // ---- default sizing

  /** Conviction, clamped to [0, 1]. */
  function Clamped(strength: real): real {
    if strength <= 0.0 then 0.0 else if strength >= 1.0 then 1.0 else strength
  }

  /** 95% of equity, scaled by conviction. */
  ghost function Allotted(equity: real, strength: real): real {
    0.95 * equity * Clamped(strength)
  }

  lemma UnitsOfAllotted(equity: real, strength: real, price: real)
    requires price > 0.0
    ensures DefaultUnits(equity, strength, price) == Truncate(Allotted(equity, strength) / price)
    ensures equity >= 0.0 ==> Allotted(equity, strength) >= 0.0
    ensures Allotted(-equity, strength) == -Allotted(equity, strength)
  {
    var k, money := Min(Max(strength, 0.0), 1.0), equity * DEFAULT_ALLOCATION;
    assert k == Clamped(strength) && money == 0.95 * equity;
    assert AllocatedNotional(equity, strength) == Allotted(equity, strength);
    hide Truncate, AllocatedNotional;
    if equity >= 0.0 {
      MulNonNegative(0.95 * equity, Clamped(strength));
    }
    assert (0.95 * -equity) * Clamped(strength) == -((0.95 * equity) * Clamped(strength));
  }

  lemma TruncateMirrors(x: real, price: real)
    requires price > 0.0
    ensures Truncate(-x / price) == -Truncate(x / price)
  {
    assert -x / price == -(x / price);
  }

  lemma SizeOfUnits(c: SizingContext)
    requires c.price > 0.0
    ensures DefaultSize(c) == match c.direction
                              case LONG => DefaultUnits(c.equity, c.strength, c.price) as real
                              case SHORT => (-DefaultUnits(c.equity, c.strength, c.price)) as real
                              case FLAT => 0.0
  {
    hide DefaultUnits;
  }

  /** The default long position is the largest whole number of units worth at most 95% of equity, scaled by conviction. */
  lemma DefaultSizeFits(c: SizingContext)
    requires c.direction == LONG && c.price > 0.0 && c.equity >= 0.0
    ensures Whole(DefaultSize(c)) && DefaultSize(c) >= 0.0
    ensures DefaultSize(c) * c.price <= Allotted(c.equity, c.strength) < (DefaultSize(c) + 1.0) * c.price
  {
    hide DefaultUnits, DefaultSize, Allotted, Truncate, Whole;
    var money := Allotted(c.equity, c.strength);
    UnitsOfAllotted(c.equity, c.strength, c.price);
    SizeOfUnits(c);
    WholeUnitsOf(money, c.price);
    QuotientSign(money, c.price);
    WholeInt(Truncate(money / c.price));
  }

  /** A short is minus that size, negative equity turns the side round, and there is no size without a direction or a price. */
  lemma DefaultSizeMirrors(c: SizingContext)
    ensures c.direction == SHORT ==> DefaultSize(c) == -DefaultSize(c.(direction := LONG))
    ensures c.price > 0.0 ==> DefaultSize(c.(equity := -c.equity)) == -DefaultSize(c)
    ensures c.direction == FLAT || c.price <= 0.0 ==> DefaultSize(c) == 0.0
  {
    if c.price > 0.0 {
      UnitsOfAllotted(c.equity, c.strength, c.price);
      UnitsOfAllotted(-c.equity, c.strength, c.price);
      TruncateMirrors(Allotted(c.equity, c.strength), c.price);
      hide DefaultUnits, DefaultSize, Allotted, Truncate;
      SizeOfUnits(c);
      SizeOfUnits(c.(direction := LONG));
      SizeOfUnits(c.(equity := -c.equity));
    }
  }

  // ---- what the hooks see

  ghost predicate PositionSeen(c: ContractPosition, o: Observation) {
    && c.symbol == o.position.symbol && c.quantity == o.position.quantity && c.entryPrice == o.position.averagePrice
    && c.entryTimestamp == (match o.position.entryTimestamp case None => 0 case Some(t) => t)
    && c.barsHeld == (if o.position.quantity == 0.0 || o.bar < o.position.entryBar then 0 else o.bar - o.position.entryBar)
  }

  /** The sizing hook sees the bar's close, timestamp, conviction and indicators, and the account at this close. */
  ghost predicate SizingSees(c: SizingContext, signals: SignalSet, o: Observation, direction: SignalDirection)
    requires o.bar < |signals.rows| == |signals.indicators|
  {
    && c.timestamp == o.market.timestamp && c.symbol == o.market.symbol && c.price == o.market.close
    && c.direction == direction && c.strength == signals.rows[o.bar].strength
    && c.indicators == signals.indicators[o.bar]
    && c.equity == o.equity && c.cash == o.cash && PositionSeen(c.position, o)
  }

  /** The exit hook sees the whole bar, the open position and what it would gain at this close. */
  ghost predicate ExitSees(c: ExitContext, signals: SignalSet, o: Observation)
    requires o.bar < |signals.rows| == |signals.indicators|
  {
    var invested := Abs(o.position.averagePrice * o.position.quantity);
    && c.timestamp == o.market.timestamp && c.symbol == o.market.symbol && c.price == o.market.close && c.bar == o.market
    && c.indicators == signals.indicators[o.bar] && PositionSeen(c.position, o)
    && c.unrealizedPnl == (o.market.close - o.position.averagePrice) * o.position.quantity
    && (invested == 0.0 ==> c.unrealizedReturn == 0.0)
    && (invested != 0.0 ==> c.unrealizedReturn * invested == c.unrealizedPnl)
  }

  lemma SizingSeesIt(signals: SignalSet, o: Observation, direction: SignalDirection)
    requires o.bar < |signals.rows| == |signals.indicators|
    ensures forall c :: SizingSees(c, signals, o, direction) <==> c == SizingContextOf(signals, direction, o)
  {
  }

  lemma ReturnIsUnique(pnl: real, invested: real, r: real)
    requires invested != 0.0
    ensures r * invested == pnl <==> r == pnl / invested
  {
    var q := pnl / invested;
    DivMul(pnl, invested);
    if r * invested == pnl {
      assert (r - q) * invested == 0.0;
    }
  }

  lemma ExitSeesIt(signals: SignalSet, o: Observation)
    requires o.bar < |signals.rows| == |signals.indicators|
    ensures forall c :: ExitSees(c, signals, o) <==> c == ExitContextOf(signals, o)
  {
    var pnl, invested := o.position.UnrealizedPnl(o.market.close), Abs(o.position.averagePrice * o.position.quantity);
    assert invested == 0.0 <==> o.position.averagePrice * o.position.quantity == 0.0;
    forall c: ExitContext
      ensures ExitSees(c, signals, o) <==> c == ExitContextOf(signals, o)
    {
      if invested != 0.0 {
        ReturnIsUnique(pnl, invested, c.unrealizedReturn);
      }
    }
  }

  // ---- the decision

  function Side(quantity: real): SignalDirection {
    if quantity > 0.0 then LONG else if quantity < 0.0 then SHORT else FLAT
  }

  /** A discretionary exit: a zero target, and the side that was held is remembered. */
  ghost predicate Leaves(d: Decision<Option<SignalDirection>>, o: Observation, reason: string) {
    d == Decision(0.0, if reason == "" then "strategy exit signal" else reason, Some(Side(o.position.quantity)))
  }

  /** The row of the signal decides: shorts become flat where they are not allowed, and so does a remembered direction. */
  ghost predicate Follows(d: Decision<Option<SignalDirection>>, strategy: Strategy, signals: SignalSet, allowShort: bool,
                          memory: Option<SignalDirection>, o: Observation)
    requires o.bar < |signals.rows| == |signals.indicators|
  {
    var row := signals.rows[o.bar];
    var wanted := if row.direction == SHORT && !allowShort then FLAT else row.direction;
    var direction := if memory == Some(wanted) then FLAT else wanted;
    && d.memory == (if memory == Some(wanted) then memory else None)
    && if direction == Side(o.position.quantity) && !strategy.rebalancesContinuously then
         d.target == o.position.quantity && d.reason == ""
       else
         && (forall c :: SizingSees(c, signals, o, direction) ==> d.target == strategy.positionSize(c))
         && d.reason == (if row.reason != "" then row.reason
                         else match direction case LONG => "target long" case SHORT => "target short" case FLAT => "target flat")
  }

  /** Every decision either leaves, exactly when an open position's exit hook says so, or follows the row. */
  lemma DecisionMeans(strategy: Strategy, signals: SignalSet, allowShort: bool, memory: Option<SignalDirection>,
                      o: Observation, e: ExitContext)
    requires o.bar < |signals.rows| == |signals.indicators| && ExitSees(e, signals, o)
    ensures var d, exit := SignalDecision(strategy, signals, allowShort, memory, o), strategy.exitSignal(e);
            if o.position.quantity != 0.0 && exit.shouldExit then Leaves(d, o, exit.reason)
            else Follows(d, strategy, signals, allowShort, memory, o)
  {
    ExitSeesIt(signals, o);
    if !Exits(strategy, signals, o) {
      FollowsRow(strategy, signals, allowShort, memory, o);
    }
    hide ExitContextOf, ExitSees, Follows, EffectiveDirection, SizingContextOf;
  }

  lemma FollowsRow(strategy: Strategy, signals: SignalSet, allowShort: bool, memory: Option<SignalDirection>, o: Observation)
    requires o.bar < |signals.rows| == |signals.indicators| && !Exits(strategy, signals, o)
    ensures Follows(SignalDecision(strategy, signals, allowShort, memory, o), strategy, signals, allowShort, memory, o)
  {
    hide Exits, ExitContextOf, SizingContextOf, SizingSees, EffectiveDirection, RowAt;
    WantedDirection(signals, allowShort, o.bar);
    var wanted := EffectiveDirection(signals, allowShort, o.bar);
    SizingSeesIt(signals, o, if memory == Some(wanted) then FLAT else wanted);
  }

  lemma WantedDirection(signals: SignalSet, allowShort: bool, i: nat)
    requires i < |signals.rows|
    ensures var row := signals.rows[i];
            && RowAt(signals, i) == row
            && EffectiveDirection(signals, allowShort, i) == if row.direction == SHORT && !allowShort then FLAT else row.direction
  {
  }

  // ---- runs: the position has the side of the signal

  ghost predicate NeverExits(strategy: Strategy) {
    forall e: ExitContext :: !strategy.exitSignal(e).shouldExit
  }

  /** Default sizing, no discretionary exits, and a row of the signal for every bar. */
  ghost predicate PlainRun(env: Env<Option<SignalDirection>>, strategy: Strategy, signals: SignalSet) {
    DefaultRun(env, strategy, signals) && NeverExits(strategy) && |signals.rows| == |signals.indicators| == |env.bars|
  }

  /** Position q is long, short or flat as wanted; it may be flat only because the size rounds to zero. */
  ghost predicate OnSide(q: real, wanted: SignalDirection, money: real, price: real) {
    match wanted
    case LONG => q > 0.0 || (q == 0.0 && money < price)
    case SHORT => q < 0.0 || (q == 0.0 && money < price)
    case FLAT => q == 0.0
  }

  lemma {:induction false} NothingRemembered(env: Env<Option<SignalDirection>>, strategy: Strategy, signals: SignalSet, i: nat)
    requires PlainRun(env, strategy, signals) && i < |env.bars|
    ensures Reached(env, None, i).memory == None
  {
    hide Reached, SizesByDefault, DecisionAt;
    if i == 0 {
      FirstBar(env, None);
    } else {
      NothingRemembered(env, strategy, signals, i - 1);
      RunIsSolo(env, None, i - 1);
      NextBar(env, None, i - 1);
      PlainDecision(env, strategy, signals, i - 1);
    }
  }

  /** Without exits and with nothing remembered every decision follows its row, and what it sees is that bar. */
  lemma PlainDecision(env: Env<Option<SignalDirection>>, strategy: Strategy, signals: SignalSet, i: nat)
    requires PlainRun(env, strategy, signals) && i < |env.bars| && Reached(env, None, i).memory == None
    ensures Follows(DecisionAt(env, None, i), strategy, signals, env.config.allowShort, None, SeenAt(env, i))
    ensures DecisionAt(env, None, i).memory == None
    ensures SeenAt(env, i).market.close == env.bars[i].close && SeenAt(env, i).equity == EquityAt(env, None, i)
    ensures SeenAt(env, i).position.quantity == QuantityAt(env, None, i)
  {
    hide Reached, SignalDecision, SizesByDefault, Follows, SizingSees, ExitSees, Equity, FlatMeansZero;
    DefaultSizingIsFlatAtFlat(strategy);
    DecisionIsSignalDecision(env, strategy, signals, i);
    var o := SeenAt(env, i);
    ExitSeesIt(signals, o);
    DecisionMeans(strategy, signals, env.config.allowShort, None, o, ExitContextOf(signals, o));
    FollowsForgets(DecisionAt(env, None, i), strategy, signals, env.config.allowShort, o);
    hide ExitContextOf;
  }

  lemma FollowsForgets(d: Decision<Option<SignalDirection>>, strategy: Strategy, signals: SignalSet, allowShort: bool, o: Observation)
    requires o.bar < |signals.rows| == |signals.indicators| && Follows(d, strategy, signals, allowShort, None, o)
    ensures d.memory == None
  {
    hide SizingSees;
  }

  /** A default size is on the side asked for. */
  lemma SizeIsOnSide(c: SizingContext)
    requires c.price > 0.0 && c.equity >= 0.0
    ensures OnSide(DefaultSize(c), c.direction, Allotted(c.equity, c.strength), c.price)
  {
    DefaultSizeMirrors(c);
    hide DefaultSize, Allotted;
    if c.direction != FLAT {
      DefaultSizeFits(c.(direction := LONG));
      assert DefaultSize(c.(direction := LONG)) == 0.0 ==> (DefaultSize(c.(direction := LONG)) + 1.0) * c.price == c.price;
    }
  }

  lemma TargetIsOnSide(d: Decision<Option<SignalDirection>>, strategy: Strategy, signals: SignalSet, allowShort: bool, o: Observation)
    requires o.bar < |signals.rows| == |signals.indicators| && Follows(d, strategy, signals, allowShort, None, o)
    requires SizesByDefault(strategy) && o.market.close > 0.0 && o.equity >= 0.0
    ensures var row := signals.rows[o.bar];
            OnSide(d.target, if row.direction == SHORT && !allowShort then FLAT else row.direction,
                   Allotted(o.equity, row.strength), o.market.close)
  {
    hide DefaultSize, Allotted, SizingContextOf;
    var row := signals.rows[o.bar];
    var wanted := if row.direction == SHORT && !allowShort then FLAT else row.direction;
    if wanted != Side(o.position.quantity) || strategy.rebalancesContinuously {
      var c := SizingContextOf(signals, wanted, o);
      SizingSeesIt(signals, o, wanted);
      assert SizingSees(c, signals, o, wanted);
      SizeIsOnSide(c);
    }
  }

  /**
   * Signals are held: unless bar i + 1 carries a warning, the position there is on the side that row i asks for,
   * or flat because the allotted money buys no whole unit.
   */
  lemma SignalIsHeld(env: Env<Option<SignalDirection>>, strategy: Strategy, signals: SignalSet, i: nat)
    requires PlainRun(env, strategy, signals) && i + 1 < |env.bars|
    requires env.bars[i].close > 0.0 && EquityAt(env, None, i) >= 0.0
    requires Reached(env, None, i + 1).warnings == Reached(env, None, i).warnings
    ensures var row := signals.rows[i];
            OnSide(QuantityAt(env, None, i + 1),
                   if row.direction == SHORT && !env.config.allowShort then FLAT else row.direction,
                   Allotted(EquityAt(env, None, i), row.strength), env.bars[i].close)
  {
    hide Reached, SizesByDefault, DecisionAt, Follows, OnSide, Allotted, EquityAt, QuantityAt, Tracks, SignalsEnv;
    NothingRemembered(env, strategy, signals, i);
    PlainDecision(env, strategy, signals, i);
    TargetIsOnSide(DecisionAt(env, None, i), strategy, signals, env.config.allowShort, SeenAt(env, i));
    DefaultSizingTracks(env, strategy, signals, i);
  }
}
