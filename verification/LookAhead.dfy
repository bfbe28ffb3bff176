/**
 * No look-ahead from end to end: cut the market data at any bar, generate the signals and run the engine
 * on what is left, and the result is the beginning of the result on all of it.
 */
module LookAhead {
  import opened Prelude
  import opened Events
  import opened Engine
  import opened Causality
  import opened Simulation
  import opened SignalFrame
  import DualThrust
  import Macd
  import Bollinger
  import PairTrading

  /** What is backtested, and the strategy's two pure hooks. */
  datatype Backtest = Backtest(symbol: string, index: seq<Timestamp>, bars: seq<Bar>, config: Config, strategy: Strategy)
  {
    ghost predicate Valid() {
      |index| == |bars| > 0 && Increasing(index) && !config.liquidateAtEnd
    }

    /** The same backtest on the first k bars only. */
    function Cut(k: nat): Backtest
      requires k <= |index| && k <= |bars|
    {
      Backtest(symbol, index[..k], bars[..k], config, strategy)
    }

    function Closes(): (r: seq<real>)
      ensures |r| == |bars|
    {
      DualThrust.Closes(bars)
    }

    function Under(signals: SignalSet): Env<Option<SignalDirection>> {
      SignalsEnv(symbol, index, bars, config, strategy, signals)
    }
  }

  /** Before bar k the decider cannot tell the cut signals from the full ones. */
  lemma SameDecision(strategy: Strategy, signals: SignalSet, k: nat, allowShort: bool, m: Option<SignalDirection>, o: Observation)
    requires o.bar < k <= |signals.rows| == |signals.indicators|
    ensures SignalDecision(strategy, FirstRows(signals, k), allowShort, m, o) == SignalDecision(strategy, signals, allowShort, m, o)
  {
    hide DirectionOf, ContractOf;
    var cut := FirstRows(signals, k);
    assert RowAt(cut, o.bar) == RowAt(signals, o.bar) && IndicatorsAt(cut, o.bar) == IndicatorsAt(signals, o.bar);
    assert ExitContextOf(cut, o) == ExitContextOf(signals, o);
    hide ExitContextOf, RowAt, IndicatorsAt;
  }

  lemma CutTruncates(b: Backtest, signals: SignalSet, k: nat)
    requires b.Valid() && 0 < k <= |b.bars| == |signals.rows| == |signals.indicators|
    ensures Truncates(b.Cut(k).Under(FirstRows(signals, k)), b.Under(signals))
  {
    var cut, full := b.Cut(k).Under(FirstRows(signals, k)), b.Under(signals);
    forall m: Option<SignalDirection>, o: Observation | o.bar + 1 < k
      ensures cut.decide(m, o) == full.decide(m, o)
    {
      SameDecision(b.strategy, signals, k, b.config.allowShort, m, o);
    }
    hide SignalDecision;
  }

  /** The later records extend the earlier ones by what is dated after `now`. */
  ghost predicate ExtendsRecords<D>(short: RunState<D>, long: RunState<D>, now: Timestamp) {
    && short.orders <= long.orders && short.fills <= long.fills && short.warnings <= long.warnings
    && short.portfolio.trades <= long.portfolio.trades
    && (forall i :: |short.orders| <= i < |long.orders| ==> long.orders[i].timestamp > now)
    && (forall i :: |short.fills| <= i < |long.fills| ==> long.fills[i].timestamp > now)
    && (forall i :: |short.warnings| <= i < |long.warnings| ==> long.warnings[i].timestamp > now)
    && (forall i :: |short.portfolio.trades| <= i < |long.portfolio.trades| ==> long.portfolio.trades[i].exitTimestamp > now)
  }

  /**
   * The run on the cut data is what the full run had recorded when bar k - 1 closed: the same equity, exposure
   * and positions, and exactly the orders, fills, warnings and trades dated up to that bar: those of the run on
   * the cut data are, and all others of the full run come later.
   */
  ghost predicate SameHistory(b: Backtest, cut: SignalSet, full: SignalSet, k: nat)
    requires b.Valid() && 0 < k <= |b.bars|
  {
    var now := b.index[k - 1];
    var short, long := Run(b.Cut(k).Under(cut), None), Run(b.Under(full), None);
    && |long.equity| >= k && |long.exposure| >= k && |long.positions| >= k
    && short.equity == long.equity[..k] && short.exposure == long.exposure[..k] && short.positions == long.positions[..k]
    && DatedBy(short, now) && ExtendsRecords(short, long, now)
  }

  lemma CutSignalsSameHistory(b: Backtest, signals: SignalSet, k: nat)
    requires b.Valid() && 0 < k <= |b.bars| == |signals.rows| == |signals.indicators|
    ensures SameHistory(b, FirstRows(signals, k), signals, k)
  {
    hide Run, Truncates, FirstRows;
    CutTruncates(b, signals, k);
    var cut, full := b.Cut(k).Under(FirstRows(signals, k)), b.Under(signals);
    Truncation(cut, full, None);
    assert full.index[k - 1] == b.index[k - 1] == cut.index[k - 1];
    hide SignalsEnv;
  }

  /**
   * The two runs agree on everything up to bar k - 1: the same equity, exposure and positions, and the same
   * orders, fills, warnings and trades dated up to then, which are those of `past`.
   */
  ghost predicate SharedPast<D>(x: RunState<D>, y: RunState<D>, past: RunState<D>, k: nat, now: Timestamp) {
    && |x.equity| >= k && |y.equity| >= k && x.equity[..k] == y.equity[..k]
    && |x.exposure| >= k && |y.exposure| >= k && x.exposure[..k] == y.exposure[..k]
    && |x.positions| >= k && |y.positions| >= k && x.positions[..k] == y.positions[..k]
    && DatedBy(past, now) && ExtendsRecords(past, x, now) && ExtendsRecords(past, y, now)
  }

  /** Two backtests over the same first k bars, with the same symbol, configuration and strategy. */
  ghost predicate SameFirstBars(b: Backtest, c: Backtest, k: nat) {
    && b.Valid() && c.Valid() && 0 < k <= |b.bars| && k <= |c.bars|
    && b.Cut(k) == c.Cut(k)
  }

  lemma CommonHistory(b: Backtest, c: Backtest, cut: SignalSet, signals: SignalSet, corrupted: SignalSet, k: nat)
    returns (past: RunState<Option<SignalDirection>>)
    requires SameFirstBars(b, c, k) && SameHistory(b, cut, signals, k) && SameHistory(c, cut, corrupted, k)
    ensures SharedPast(Run(b.Under(signals), None), Run(c.Under(corrupted), None), past, k, b.index[k - 1])
  {
    hide Run, DatedBy, ExtendsRecords;
    assert b.index[k - 1] == b.Cut(k).index[k - 1] == c.index[k - 1];
    past := Run(b.Cut(k).Under(cut), None);
  }

  lemma ClosesOfCut(b: Backtest, k: nat)
    requires k <= |b.index| && k <= |b.bars|
    ensures b.Cut(k).Closes() == b.Closes()[..k]
  {
    DualThrust.PricesPrefix(b.bars, k);
  }

  lemma MacdSeesNoFuture(p: Macd.Params, b: Backtest, k: nat)
    requires p.Valid() && b.Valid() && 0 < k <= |b.bars|
    ensures SameHistory(b, Macd.Signals(p, b.Cut(k).Closes()), Macd.Signals(p, b.Closes()), k)
  {
    hide Macd.Signals, SameHistory, FirstRows, Backtest.Closes;
    ClosesOfCut(b, k);
    Macd.SignalsPrefix(p, b.Closes(), k);
    CutSignalsSameHistory(b, Macd.Signals(p, b.Closes()), k);
  }

  lemma BollingerSeesNoFuture(root: real -> real, p: Bollinger.Params, b: Backtest, k: nat)
    requires p.Valid() && b.Valid() && 0 < k <= |b.bars|
    ensures SameHistory(b, Bollinger.Signals(root, p, b.Cut(k).Closes()), Bollinger.Signals(root, p, b.Closes()), k)
  {
    hide Bollinger.Signals, SameHistory, FirstRows, Backtest.Closes;
    ClosesOfCut(b, k);
    Bollinger.SignalsPrefix(root, p, b.Closes(), k);
    CutSignalsSameHistory(b, Bollinger.Signals(root, p, b.Closes()), k);
  }

  lemma DualThrustSeesNoFuture(p: DualThrust.Params, b: Backtest, k: nat)
    requires p.Valid() && b.Valid() && 0 < k <= |b.bars|
    ensures SameHistory(b, DualThrust.Signals(p, b.Cut(k).bars), DualThrust.Signals(p, b.bars), k)
  {
    hide DualThrust.Signals, SameHistory, FirstRows;
    DualThrust.SignalsPrefix(p, b.bars, k);
    CutSignalsSameHistory(b, DualThrust.Signals(p, b.bars), k);
  }

  /** The traded leg as the pair strategy sees it. */
  function Primary(b: Backtest): PairTrading.PriceSeries {
    PairTrading.PriceSeries(b.symbol, b.index, b.Closes())
  }

  /** Pair trading, both legs cut at the same moment. */
  lemma PairTradingSeesNoFuture(log: real -> real, root: real -> real, describe: (PairTrading.Event, real) -> string,
                                p: PairTrading.Params, b: Backtest, pair: PairTrading.PriceSeries, k: nat, m: nat)
    requires p.Valid() && b.Valid() && PairTrading.CutTogether(Primary(b), pair, k, m)
    ensures SameHistory(b, PairTrading.Signals(log, root, describe, p, Primary(b.Cut(k)), PairTrading.Cut(pair, m)),
                        PairTrading.Signals(log, root, describe, p, Primary(b), pair), k)
  {
    hide PairTrading.Signals, SameHistory, FirstRows;
    ClosesOfCut(b, k);
    PairTrading.SignalsPrefix(log, root, describe, p, Primary(b), pair, k, m);
    assert Primary(b.Cut(k)) == PairTrading.Cut(Primary(b), k);
    hide PairTrading.CutTogether;
    CutSignalsSameHistory(b, PairTrading.Signals(log, root, describe, p, Primary(b), pair), k);
  }

  // ---- corrupting the future does not change the past

  /** Two MACD backtests with the same first k bars record the same history of them, whatever follows. */
  lemma MacdCorruptedFuture(p: Macd.Params, b: Backtest, c: Backtest, k: nat) returns (past: RunState<Option<SignalDirection>>)
    requires p.Valid() && SameFirstBars(b, c, k)
    ensures SharedPast(Run(b.Under(Macd.Signals(p, b.Closes())), None), Run(c.Under(Macd.Signals(p, c.Closes())), None),
                       past, k, b.index[k - 1])
  {
    hide Macd.Signals, SameHistory, SharedPast, Run, Backtest.Closes, Backtest.Under;
    MacdSeesNoFuture(p, b, k);
    MacdSeesNoFuture(p, c, k);
    past := CommonHistory(b, c, Macd.Signals(p, b.Cut(k).Closes()), Macd.Signals(p, b.Closes()), Macd.Signals(p, c.Closes()), k);
  }

  lemma BollingerCorruptedFuture(root: real -> real, p: Bollinger.Params, b: Backtest, c: Backtest, k: nat)
    returns (past: RunState<Option<SignalDirection>>)
    requires p.Valid() && SameFirstBars(b, c, k)
    ensures SharedPast(Run(b.Under(Bollinger.Signals(root, p, b.Closes())), None),
                       Run(c.Under(Bollinger.Signals(root, p, c.Closes())), None), past, k, b.index[k - 1])
  {
    hide Bollinger.Signals, SameHistory, SharedPast, Run, Backtest.Closes, Backtest.Under;
    BollingerSeesNoFuture(root, p, b, k);
    BollingerSeesNoFuture(root, p, c, k);
    past := CommonHistory(b, c, Bollinger.Signals(root, p, b.Cut(k).Closes()),
                          Bollinger.Signals(root, p, b.Closes()), Bollinger.Signals(root, p, c.Closes()), k);
  }

  lemma DualThrustCorruptedFuture(p: DualThrust.Params, b: Backtest, c: Backtest, k: nat)
    returns (past: RunState<Option<SignalDirection>>)
    requires p.Valid() && SameFirstBars(b, c, k)
    ensures SharedPast(Run(b.Under(DualThrust.Signals(p, b.bars)), None), Run(c.Under(DualThrust.Signals(p, c.bars)), None),
                       past, k, b.index[k - 1])
  {
    hide DualThrust.Signals, SameHistory, SharedPast, Run, Backtest.Under;
    DualThrustSeesNoFuture(p, b, k);
    DualThrustSeesNoFuture(p, c, k);
    past := CommonHistory(b, c, DualThrust.Signals(p, b.Cut(k).bars), DualThrust.Signals(p, b.bars), DualThrust.Signals(p, c.bars), k);
  }

  /** Both legs agree up to the close of bar k - 1; the second legs share their first m bars, and the rest come later. */
  lemma PairTradingCorruptedFuture(log: real -> real, root: real -> real, describe: (PairTrading.Event, real) -> string,
                                   p: PairTrading.Params, b: Backtest, c: Backtest,
                                   pair: PairTrading.PriceSeries, other: PairTrading.PriceSeries, k: nat, m: nat)
    returns (past: RunState<Option<SignalDirection>>)
    requires p.Valid() && SameFirstBars(b, c, k)
    requires PairTrading.CutTogether(Primary(b), pair, k, m) && PairTrading.CutTogether(Primary(c), other, k, m)
    requires PairTrading.Cut(pair, m) == PairTrading.Cut(other, m)
    ensures SharedPast(Run(b.Under(PairTrading.Signals(log, root, describe, p, Primary(b), pair)), None),
                       Run(c.Under(PairTrading.Signals(log, root, describe, p, Primary(c), other)), None),
                       past, k, b.index[k - 1])
  {
    hide PairTrading.Signals, SameHistory, SharedPast, Run, Backtest.Closes, Backtest.Under;
    PairTradingSeesNoFuture(log, root, describe, p, b, pair, k, m);
    PairTradingSeesNoFuture(log, root, describe, p, c, other, k, m);
    past := CommonHistory(b, c, PairTrading.Signals(log, root, describe, p, Primary(b.Cut(k)), PairTrading.Cut(pair, m)),
                          PairTrading.Signals(log, root, describe, p, Primary(b), pair),
                          PairTrading.Signals(log, root, describe, p, Primary(c), other), k);
  }
}
