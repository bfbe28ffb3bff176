/** The decision half: base.py's contract and the decide closure of engine.simulate. */
module Simulation {
  import opened Prelude
  import opened RealMath
  import opened Events
  import opened Ledger
  import opened Engine
  import EngineLoop
  import PyPortfolio

  datatype SignalDirection = SHORT | FLAT | LONG {
    function Sign(): int {
      match this
      case SHORT => -1
      case FLAT => 0
      case LONG => 1
    }

    function Label(): string {
      match this
      case SHORT => "short"
      case FLAT => "flat"
      case LONG => "long"
    }
  }

  function DirectionOf(quantity: real): SignalDirection {
    if quantity > 0.0 then LONG else if quantity < 0.0 then SHORT else FLAT
  }

  datatype SignalRow = SignalRow(direction: SignalDirection, strength: real, reason: string)

  /** The finite indicator values of one bar, by column name. */
  type Indicators = map<string, real>

  datatype SignalSet = SignalSet(rows: seq<SignalRow>, indicators: seq<Indicators>)

  datatype ContractPosition = ContractPosition(
    symbol: string, quantity: real, entryPrice: real, entryTimestamp: Timestamp, barsHeld: int)

  datatype ExitContext = ExitContext(
    timestamp: Timestamp, symbol: string, position: ContractPosition, price: real, bar: MarketEvent,
    unrealizedPnl: real, unrealizedReturn: real, indicators: Indicators)

  datatype SizingContext = SizingContext(
    timestamp: Timestamp, symbol: string, direction: SignalDirection, strength: real, price: real,
    equity: real, cash: real, position: ContractPosition, indicators: Indicators)

  datatype ExitDecision = ExitDecision(shouldExit: bool, reason: string)

  /** What the engine asks of a strategy: both hooks are pure functions of their context. */
  datatype Strategy = Strategy(
    positionSize: SizingContext -> real,
    exitSignal: ExitContext -> ExitDecision,
    rebalancesContinuously: bool)

  const DEFAULT_ALLOCATION: real := 0.95

  /** The share of equity behind one position, scaled by conviction. */
  function AllocatedNotional(equity: real, strength: real): real {
    equity * DEFAULT_ALLOCATION * Min(Max(strength, 0.0), 1.0)
  }

  function DefaultUnits(equity: real, strength: real, price: real): int
    requires price > 0.0
  {
    Truncate(AllocatedNotional(equity, strength) / price)
  }

  /** Strategy.position_size: whole units worth 95% of equity, scaled by conviction. */
  function DefaultSize(c: SizingContext): real {
    if c.direction == FLAT || c.price <= 0.0 then 0.0
    else (DefaultUnits(c.equity, c.strength, c.price) * c.direction.Sign()) as real
  }

  /** The strategy leaves position_size as it is. */
  ghost predicate SizesByDefault(strategy: Strategy) {
    forall c: SizingContext :: strategy.positionSize(c) == DefaultSize(c)
  }

  function ContractOf(o: Observation): ContractPosition {
    var p := o.position;
    ContractPosition(p.symbol, p.quantity, p.averagePrice,
                     if p.entryTimestamp.Some? then p.entryTimestamp.value else 0,
                     if !p.IsFlat() && o.bar - p.entryBar > 0 then o.bar - p.entryBar else 0)
  }

  function IndicatorsAt(signals: SignalSet, i: nat): Indicators {
    if i < |signals.indicators| then signals.indicators[i] else map[]
  }

  function RowAt(signals: SignalSet, i: nat): SignalRow {
    if i < |signals.rows| then signals.rows[i] else SignalRow(FLAT, 0.0, "")
  }

  function UnrealizedReturn(p: Position, price: real): real {
    if p.averagePrice * p.quantity == 0.0 then 0.0
    else p.UnrealizedPnl(price) / Abs(p.averagePrice * p.quantity)
  }

  function ExitContextOf(signals: SignalSet, o: Observation): ExitContext {
    ExitContext(o.market.timestamp, o.market.symbol, ContractOf(o), o.market.close, o.market,
                o.position.UnrealizedPnl(o.market.close), UnrealizedReturn(o.position, o.market.close),
                IndicatorsAt(signals, o.bar))
  }

  /** A discretionary exit fires on this bar. */
  predicate Exits(strategy: Strategy, signals: SignalSet, o: Observation) {
    !o.position.IsFlat() && strategy.exitSignal(ExitContextOf(signals, o)).shouldExit
  }

  /** The bar's signal, with shorts flattened when the portfolio is long-only. */
  function EffectiveDirection(signals: SignalSet, allowShort: bool, i: nat): SignalDirection {
    var direction := RowAt(signals, i).direction;
    if direction == SHORT && !allowShort then FLAT else direction
  }

  function SizingContextOf(signals: SignalSet, direction: SignalDirection, o: Observation): SizingContext {
    SizingContext(o.market.timestamp, o.market.symbol, direction, RowAt(signals, o.bar).strength, o.market.close,
                  o.equity, o.cash, ContractOf(o), IndicatorsAt(signals, o.bar))
  }

  /** decide(): an exit and its suppression, or the target of the bar's signal. */
  function SignalDecision(strategy: Strategy, signals: SignalSet, allowShort: bool,
                          suppressed: Option<SignalDirection>, o: Observation): Decision<Option<SignalDirection>>
  {
    if Exits(strategy, signals, o) then
      var reason := strategy.exitSignal(ExitContextOf(signals, o)).reason;
      Decision(0.0, if reason == "" then "strategy exit signal" else reason, Some(DirectionOf(o.position.quantity)))
    else
      var effective := EffectiveDirection(signals, allowShort, o.bar);
      var held := suppressed == Some(effective);
      var direction := if held then FLAT else effective;
      var memory := if held then suppressed else None;
      if direction == DirectionOf(o.position.quantity) && !strategy.rebalancesContinuously then
        Decision(o.position.quantity, "", memory)
      else
        var row := RowAt(signals, o.bar);
        Decision(strategy.positionSize(SizingContextOf(signals, direction, o)),
                 if row.reason == "" then "target " + direction.Label() else row.reason,
                 memory)
  }

  function SignalsEnv(symbol: string, index: seq<Timestamp>, bars: seq<Bar>, config: Config,
                      strategy: Strategy, signals: SignalSet): Env<Option<SignalDirection>>
  {
    Env(symbol, index, bars, config,
        (m: Option<SignalDirection>, o: Observation) => SignalDecision(strategy, signals, config.allowShort, m, o))
  }

  /** The closure itself: its captured variable is the direction whose re-entry is suppressed. */
  class Decider {
    const strategy: Strategy
    const signals: SignalSet
    const allowShort: bool
    var suppressed: Option<SignalDirection>

    constructor (strategy: Strategy, signals: SignalSet, allowShort: bool)
      ensures this.strategy == strategy && this.signals == signals && this.allowShort == allowShort
      ensures suppressed == None
    {
      this.strategy, this.signals, this.allowShort, suppressed := strategy, signals, allowShort, None;
    }

    method Decide(o: Observation) returns (target: real, reason: string)
      modifies this
      ensures Decision(target, reason, suppressed) == SignalDecision(strategy, signals, allowShort, old(suppressed), o)
    {
      hide ExitContextOf, SizingContextOf;
      var exiting := false;
      reason := "";
      target := 0.0;
      if !o.position.IsFlat() {
        var exit := strategy.exitSignal(ExitContextOf(signals, o));
        if exit.shouldExit {
          exiting := true;
          reason := if exit.reason == "" then "strategy exit signal" else exit.reason;
          suppressed := Some(DirectionOf(o.position.quantity));
        }
      }
      if !exiting {
        var direction := RowAt(signals, o.bar).direction;
        if direction == SHORT && !allowShort {
          direction := FLAT;
        }
        if suppressed.Some? {
          if direction == suppressed.value {
            direction := FLAT;
          } else {
            suppressed := None;
          }
        }
        if direction == DirectionOf(o.position.quantity) && !strategy.rebalancesContinuously {
          target := o.position.quantity;
        } else {
          var row := RowAt(signals, o.bar);
          reason := if row.reason == "" then "target " + direction.Label() else row.reason;
          target := strategy.positionSize(SizingContextOf(signals, direction, o));
        }
      }
    }
  }

  /** A finished simulation: the output object and the portfolio it left. */
  datatype Simulated = Simulated(output: EngineLoop.SimulationOutput, portfolio: PyPortfolio.Portfolio)

  /** The two objects hold exactly what the run of env computes. */
  ghost predicate Shows<D>(s: Simulated, env: Env<D>, memory: D)
    requires env.Valid()
    reads s.output, s.portfolio, s.portfolio.positions.Values
  {
    var run := Run(env, memory);
    && EngineLoop.Holds(s.portfolio, s.output, run)
    && s.output.equityCurve == run.equity && s.output.exposure == run.exposure
  }

  /** engine.simulate: the errors it raises, else the run of the strategy's decisions. */
  method Simulate(symbol: string, index: seq<Timestamp>, bars: seq<Bar>, config: Config,
                  strategy: Strategy, signals: SignalSet, signalIndex: seq<Timestamp>)
    returns (r: Result<Simulated>)
    requires |index| == |bars| && |signals.rows| == |signalIndex|
    ensures config.initialCash <= 0.0 ==> r == Failure(NonPositiveCash)
    ensures config.initialCash > 0.0 && bars == [] ==> r == Failure(EmptySeries)
    ensures config.initialCash > 0.0 && bars != [] && index != signalIndex ==> r == Failure(SignalIndexMismatch)
    ensures config.initialCash > 0.0 && bars != [] && index == signalIndex ==>
              r.Success? && fresh(r.value.output) && fresh(r.value.portfolio) &&
              Shows(r.value, SignalsEnv(symbol, index, bars, config, strategy, signals), None)
  {
    if config.initialCash <= 0.0 {
      return Failure(NonPositiveCash);
    }
    if |bars| == 0 {
      return Failure(EmptySeries);
    }
    if index != signalIndex {
      return Failure(SignalIndexMismatch);
    }
    var portfolio := new PyPortfolio.Portfolio(config.initialCash);
    var output := new EngineLoop.SimulationOutput(symbol);
    EngineLoop.RunExecution(SignalsEnv(symbol, index, bars, config, strategy, signals), portfolio, output, None);
    r := Success(Simulated(output, portfolio));
  }

  /** engine.simulate_targets: the errors it raises, else the run of the targets array. */
  method SimulateTargets(symbol: string, index: seq<Timestamp>, bars: seq<Bar>, config: Config,
                         targets: seq<real>, reasons: Option<seq<string>>)
    returns (r: Result<Simulated>)
    requires |index| == |bars|
    ensures config.initialCash <= 0.0 ==> r == Failure(NonPositiveCash)
    ensures config.initialCash > 0.0 && bars == [] ==> r == Failure(EmptySeries)
    ensures config.initialCash > 0.0 && bars != [] && |targets| != |bars| ==> r == Failure(TargetsLengthMismatch)
    ensures config.initialCash > 0.0 && bars != [] && |targets| == |bars| && reasons.Some? && |reasons.value| != |bars| ==>
              r == Failure(ReasonsLengthMismatch)
    ensures config.initialCash > 0.0 && bars != [] && |targets| == |bars| && (reasons.Some? ==> |reasons.value| == |bars|) ==>
              r.Success? && fresh(r.value.output) && fresh(r.value.portfolio) &&
              Shows(r.value, TargetsEnv(symbol, index, bars, config, targets, reasons), ())
  {
    if config.initialCash <= 0.0 {
      return Failure(NonPositiveCash);
    }
    if |bars| == 0 {
      return Failure(EmptySeries);
    }
    if |targets| != |bars| {
      return Failure(TargetsLengthMismatch);
    }
    if reasons.Some? && |reasons.value| != |bars| {
      return Failure(ReasonsLengthMismatch);
    }
    var portfolio := new PyPortfolio.Portfolio(config.initialCash);
    var output := new EngineLoop.SimulationOutput(symbol);
    EngineLoop.RunExecution(TargetsEnv(symbol, index, bars, config, targets, reasons), portfolio, output, ());
    r := Success(Simulated(output, portfolio));
  }
}
