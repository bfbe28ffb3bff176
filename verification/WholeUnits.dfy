/** Default sizing trades whole units only, so the tracking laws hold of every signal-driven run that uses it. */
module WholeUnits {
  import opened Prelude
  import opened RealMath
  import opened Ledger
  import opened FillLaws
  import opened Conservation
  import opened Engine
  import opened Steps
  import opened RunLaws
  import opened Simulation
  import opened Suppression
  import opened Tracking

  lemma DefaultSizeIsWhole(c: SizingContext)
    ensures Whole(DefaultSize(c)) && (c.direction == FLAT ==> DefaultSize(c) == 0.0)
  {
    WholeInt(0);
    if c.direction != FLAT && c.price > 0.0 {
      WholeInt(DefaultUnits(c.equity, c.strength, c.price) * c.direction.Sign());
    }
    hide DefaultUnits, Whole;
  }

  /** A decision asks for nothing, for what is held, or for a default size. */
  lemma DefaultTargetIsWhole(strategy: Strategy, signals: SignalSet, allowShort: bool,
                             memory: Option<SignalDirection>, o: Observation)
    requires SizesByDefault(strategy) && Whole(o.position.quantity)
    ensures Whole(SignalDecision(strategy, signals, allowShort, memory, o).target)
  {
    hide DefaultSize, Whole, ExitContextOf;
    WholeInt(0);
    forall c: SizingContext
      ensures Whole(strategy.positionSize(c))
    {
      DefaultSizeIsWhole(c);
    }
  }

  lemma DefaultSizingIsFlatAtFlat(strategy: Strategy)
    requires SizesByDefault(strategy)
    ensures FlatMeansZero(strategy)
  {
  }

  ghost predicate DefaultRun(env: Env<Option<SignalDirection>>, strategy: Strategy, signals: SignalSet) {
    && env.Valid() && SizesByDefault(strategy)
    && env == SignalsEnv(env.symbol, env.index, env.bars, env.config, strategy, signals)
    && env.config.costs.Valid()
  }

  lemma WholeDecision(env: Env<Option<SignalDirection>>, strategy: Strategy, signals: SignalSet, i: nat)
    requires DefaultRun(env, strategy, signals) && i < |env.bars| && Whole(QuantityAt(env, None, i))
    ensures Whole(DecisionAt(env, None, i).target)
  {
    hide QuantityAt, DecisionAt, Reached, SignalDecision, SizesByDefault, Whole, SeenAt, FlatMeansZero;
    DefaultSizingIsFlatAtFlat(strategy);
    DecisionIsSignalDecision(env, strategy, signals, i);
    DefaultTargetIsWhole(strategy, signals, env.config.allowShort, Reached(env, None, i).memory, SeenAt(env, i));
  }

  lemma {:induction false} DefaultRunIsWhole(env: Env<Option<SignalDirection>>, strategy: Strategy, signals: SignalSet, i: nat)
    requires DefaultRun(env, strategy, signals) && i < |env.bars|
    ensures Whole(QuantityAt(env, None, i)) && Whole(DecisionAt(env, None, i).target)
  {
    hide DecisionAt, Reached, SizesByDefault, Whole, Tracks, SignalsEnv;
    if i == 0 {
      FirstBar(env, None);
      WholeInt(0);
    } else {
      DefaultRunIsWhole(env, strategy, signals, i - 1);
      NextIsTracked(env, None, i - 1);
    }
    WholeDecision(env, strategy, signals, i);
  }

  /**
   * With default sizing, for any signals and exits: every target and position is a whole number of units, and
   * every position is the target decided at the bar before unless its bar carries a warning.
   */
  lemma DefaultSizingTracks(env: Env<Option<SignalDirection>>, strategy: Strategy, signals: SignalSet, i: nat)
    requires DefaultRun(env, strategy, signals) && i + 1 < |env.bars|
    ensures WholeTargets(env, None) && Whole(QuantityAt(env, None, i)) && Tracks(env, None, i)
    ensures Reached(env, None, i + 1).warnings == Reached(env, None, i).warnings ==>
              QuantityAt(env, None, i + 1) == DecisionAt(env, None, i).target
  {
    forall j: nat | j < |env.bars|
      ensures Whole(DecisionAt(env, None, j).target)
    {
      DefaultRunIsWhole(env, strategy, signals, j);
    }
    hide QuantityAt, DecisionAt, Reached, Tracks, Whole, SizesByDefault, SignalsEnv;
    WholeTargetsAreTracked(env, None, i);
  }

  // ---- what whole targets mean for the account

  /** With whole targets every fill is for a whole quantity. */
  lemma {:induction false} FillsAreWhole<D>(env: Env<D>, memory: D, i: nat)
    requires env.Valid() && i < |env.bars| && WholeTargets(env, memory) && env.config.costs.Valid()
    ensures forall f :: f in Reached(env, memory, i).fills ==> Whole(f.quantity)
  {
    hide Reached, DecisionAt, OrderAt, ExecutionAt, ApplyFill, Solo, Whole;
    if i == 0 {
      FirstBar(env, memory);
    } else {
      FillsAreWhole(env, memory, i - 1);
      RunIsSolo(env, memory, i - 1);
      NextBar(env, memory, i - 1);
      WholeThroughout(env, memory, i - 1);
      if OrderAt(env, memory, i - 1).Some? && ExecutionAt(env, memory, i - 1).Executed? {
        ExecutedMoves(env, memory, i - 1);
        WholeSum(QuantityAt(env, memory, i), QuantityAt(env, memory, i - 1));
        WholeSum(QuantityAt(env, memory, i - 1), QuantityAt(env, memory, i));
      }
    }
  }

  /** The account of a run with whole targets, closed out at the end: where its gain comes from. */
  lemma WholeTargetsGain<D>(env: Env<D>, memory: D)
    requires env.Valid() && WholeTargets(env, memory) && env.config.costs.Valid() && env.config.liquidateAtEnd
    ensures AllTidy(Run(env, memory).portfolio)
    ensures var l := Run(env, memory).portfolio;
            && l.cash - env.config.initialCash == SumTrades(GrossPnl, l.trades) - l.totalCommission
            && l.cash - env.config.initialCash == RealizedTotal(l) + l.totalSlippage
  {
    hide Run, Reached, LiquidationFill, WholeTargets, Whole, RealizedTotal, SumTrades;
    var last := |env.bars| - 1;
    FillsAreWhole(env, memory, last);
    WholeThroughout(env, memory, last);
    LiquidatedRunEndsFlat(env, memory);
    var p := Reached(env, memory, last).portfolio.PositionOf(env.symbol);
    if !p.IsFlat() {
      LiquidationFacts(env, p);
      WholeAbs(p.quantity);
    }
    LiquidatedGain(env, memory);
  }
}
