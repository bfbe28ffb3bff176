/** Pair trading: strategies/pair_trading.py. */
module PairTrading {
  import opened Prelude
  import opened RealMath
  import opened Events
  import opened Series
  import opened Statistics
  import opened MovingAverage
  import opened PairStatistics
  import opened Simulation
  import opened SignalFrame

  datatype Params = Params(lookback: nat, entryZ: real, exitZ: real, minCorrelation: real, useHedgeRatio: bool)
  {
    /** The parameter bounds, and exit_z < entry_z. */
    predicate Valid() {
      && 10 <= lookback <= 500 && 0.5 <= entryZ <= 5.0 && 0.0 <= exitZ <= 3.0
      && -1.0 <= minCorrelation <= 1.0 && exitZ < entryZ
    }

    function WarmupBars(): nat {
      lookback + 1
    }
  }

  datatype PriceSeries = PriceSeries(symbol: string, index: seq<Timestamp>, close: seq<real>)
  {
    predicate Shaped() {
      |index| == |close|
    }
  }

  /** series.index.intersection(pair.index): the timestamps of the first that the second has too. */
  function Common(index: seq<Timestamp>, other: seq<Timestamp>): seq<Timestamp> {
    if index == [] then []
    else
      var n := |index| - 1;
      Common(index[..n], other) + if index[n] in other then [index[n]] else []
  }

  /** The cell labelled x, searched from the end. */
  function Find<T>(labels: seq<Timestamp>, c: seq<Option<T>>, x: Timestamp): Option<T>
    requires |labels| == |c|
  {
    if labels == [] then None
    else
      var n := |labels| - 1;
      if labels[n] == x then c[n] else Find(labels[..n], c[..n], x)
  }

  /** reindex: one cell per requested timestamp. */
  function Place<T>(wanted: seq<Timestamp>, labels: seq<Timestamp>, c: seq<Option<T>>): (r: seq<Option<T>>)
    requires |labels| == |c|
    ensures |r| == |wanted|
  {
    seq(|wanted|, i requires 0 <= i < |wanted| => Find(labels, c, wanted[i]))
  }

  function MapCell(f: real -> real, x: Option<real>): Option<real> {
    match x
    case None => None
    case Some(v) => Some(f(v))
  }

  /** np.log of a reindexed close. */
  function LogPrices(log: real -> real, series: PriceSeries, common: seq<Timestamp>): (r: Column)
    requires series.Shaped()
    ensures |r| == |common|
  {
    var c := Place(common, series.index, Known(series.close));
    seq(|common|, i requires 0 <= i < |common| => MapCell(log, c[i]))
  }

  function SpreadCell(a: Option<real>, beta: Option<real>, b: Option<real>): Option<real> {
    if a.Some? && beta.Some? && b.Some? then Some(a.value - Times(beta.value, b.value)) else None
  }

  function Spread(a: Column, beta: Column, b: Column): (r: Column)
    requires |a| == |beta| == |b|
    ensures |r| == |a|
  {
    seq(|a|, t requires 0 <= t < |a| => SpreadCell(a[t], beta[t], b[t]))
  }

  /** beta: the rolling hedge ratio, or one for one. */
  function Beta(p: Params, a: Column, b: Column): (r: Column)
    requires p.Valid() && |a| == |b|
    ensures |r| == |a|
  {
    if p.useHedgeRatio then HedgeRatio(a, b, p.lookback) else seq(|a|, _ => Some(1.0))
  }

  datatype Stats = Stats(spread: Column, z: Column, correlation: Column, beta: Column)

  /** Spread, z-score and the correlation of log returns, over the common timestamps. */
  function StatsOf(root: real -> real, p: Params, a: Column, b: Column): (r: Stats)
    requires p.Valid() && |a| == |b|
    ensures |r.spread| == |r.z| == |r.correlation| == |r.beta| == |a|
  {
    var beta := Beta(p, a, b);
    var spread := Spread(a, beta, b);
    Stats(spread, RollingZScore(root, spread, p.lookback),
          RollingCorrelation(root, Difference(a, Shift(a)), Difference(b, Shift(b)), p.lookback), beta)
  }

  predicate Decoupled(p: Params, correlation: Option<real>) {
    correlation.Some? && correlation.value < p.minCorrelation
  }

  predicate Unusable(p: Params, z: Option<real>, correlation: Option<real>) {
    z == None || correlation == None || Decoupled(p, correlation)
  }

  predicate EntersLong(p: Params, z: Option<real>, correlation: Option<real>) {
    !Unusable(p, z, correlation) && z.value <= -p.entryZ
  }

  predicate EntersShort(p: Params, z: Option<real>, correlation: Option<real>) {
    !Unusable(p, z, correlation) && z.value >= p.entryZ
  }

  predicate Reverts(p: Params, z: Option<real>, correlation: Option<real>) {
    !Unusable(p, z, correlation) && Abs(z.value) <= p.exitZ
  }

  function LongMask(p: Params, x: Stats): (r: seq<bool>)
    requires |x.z| == |x.correlation|
    ensures |r| == |x.z|
  {
    seq(|x.z|, t requires 0 <= t < |x.z| => EntersLong(p, x.z[t], x.correlation[t]))
  }

  function ShortMask(p: Params, x: Stats): (r: seq<bool>)
    requires |x.z| == |x.correlation|
    ensures |r| == |x.z|
  {
    seq(|x.z|, t requires 0 <= t < |x.z| => EntersShort(p, x.z[t], x.correlation[t]))
  }

  function RevertMask(p: Params, x: Stats): (r: seq<bool>)
    requires |x.z| == |x.correlation|
    ensures |r| == |x.z|
  {
    seq(|x.z|, t requires 0 <= t < |x.z| => Reverts(p, x.z[t], x.correlation[t]))
  }

  function UnusableMask(p: Params, x: Stats): (r: seq<bool>)
    requires |x.z| == |x.correlation|
    ensures |r| == |x.z|
  {
    seq(|x.z|, t requires 0 <= t < |x.z| => Unusable(p, x.z[t], x.correlation[t]))
  }

  /** The targets on the common timestamps. */
  function TargetsOf(p: Params, x: Stats): (r: seq<SignalDirection>)
    requires |x.z| == |x.correlation|
    ensures |r| == |x.z|
  {
    ForwardFill(FourMasks(LongMask(p, x), LONG, ShortMask(p, x), SHORT, RevertMask(p, x), FLAT, UnusableMask(p, x), FLAT), FLAT)
  }

  datatype Event = EnterLong | EnterShort | Revert | Decouple

  /** The explanation of a row: what happened, with the number behind it; the wording is a parameter. */
  function ReasonCell(p: Params, describe: (Event, real) -> string, z: Option<real>, correlation: Option<real>): Option<string> {
    if Decoupled(p, correlation) then Some(describe(Decouple, correlation.value))
    else if Reverts(p, z, correlation) then Some(describe(Revert, z.value))
    else if EntersShort(p, z, correlation) then Some(describe(EnterShort, z.value))
    else if EntersLong(p, z, correlation) then Some(describe(EnterLong, z.value))
    else None
  }

  function ReasonsOf(p: Params, describe: (Event, real) -> string, x: Stats): (r: seq<Option<string>>)
    requires |x.z| == |x.correlation|
    ensures |r| == |x.z|
  {
    seq(|x.z|, t requires 0 <= t < |x.z| => ReasonCell(p, describe, x.z[t], x.correlation[t]))
  }

  /** fillna(FLAT). */
  function FlatWhereMissing(c: seq<Option<SignalDirection>>): (r: seq<SignalDirection>)
    ensures |r| == |c|
  {
    seq(|c|, i requires 0 <= i < |c| => if c[i].Some? then c[i].value else FLAT)
  }

  /** Back onto the primary index: bars without a counterpart are flat. */
  function FrameOf(p: Params, describe: (Event, real) -> string, index: seq<Timestamp>, common: seq<Timestamp>, x: Stats): (r: SignalSet)
    requires |common| == |x.spread| == |x.z| == |x.correlation| == |x.beta|
    ensures |r.rows| == |r.indicators| == |index|
  {
    SignalSet(
      Rows(FlatWhereMissing(Place(index, common, Known(TargetsOf(p, x)))), Text(Place(index, common, ReasonsOf(p, describe, x)))),
      WithColumn(WithColumn(WithColumn(WithColumn(NoColumns(|index|),
        "pair_spread", Place(index, common, x.spread)), "pair_zscore", Place(index, common, x.z)),
        "pair_correlation", Place(index, common, x.correlation)), "pair_hedge_ratio", Place(index, common, x.beta)))
  }

  /** The statistics of two legs on their common timestamps. */
  function StatsFor(log: real -> real, root: real -> real, p: Params, primary: PriceSeries, pair: PriceSeries): (r: Stats)
    requires p.Valid() && primary.Shaped() && pair.Shaped()
    ensures |r.z| == |r.correlation| == |Common(primary.index, pair.index)|
  {
    var common := Common(primary.index, pair.index);
    StatsOf(root, p, LogPrices(log, primary, common), LogPrices(log, pair, common))
  }

  function Signals(log: real -> real, root: real -> real, describe: (Event, real) -> string, p: Params,
                   primary: PriceSeries, pair: PriceSeries): (r: SignalSet)
    requires p.Valid() && primary.Shaped() && pair.Shaped()
    ensures |r.rows| == |r.indicators| == |primary.index|
  {
    FrameOf(p, describe, primary.index, Common(primary.index, pair.index), StatsFor(log, root, p, primary, pair))
  }

  /** generate_signals: the errors in their order, then the masked target, overwritten in place. */
  method GenerateSignals(log: real -> real, root: real -> real, describe: (Event, real) -> string, fold: string -> string,
                         p: Params, primary: PriceSeries, injected: Option<PriceSeries>)
    returns (r: Result<SignalSet>)
    requires p.Valid() && primary.Shaped() && (injected.Some? ==> injected.value.Shaped())
    ensures injected == None ==> r == Failure(PairDataMissing)
    ensures injected.Some? && fold(injected.value.symbol) == fold(primary.symbol) ==> r == Failure(InvalidParameters)
    ensures injected.Some? && fold(injected.value.symbol) != fold(primary.symbol) ==>
              r == if |primary.index| < p.lookback + 1 || |Common(primary.index, injected.value.index)| < p.lookback + 1
                   then Failure(InsufficientData)
                   else Success(Signals(log, root, describe, p, primary, injected.value))
  {
    hide StatsOf, LongMask, ShortMask, RevertMask, UnusableMask, ReasonsOf, LogPrices;
    if injected == None {
      return Failure(PairDataMissing);
    }
    var pair := injected.value;
    if fold(pair.symbol) == fold(primary.symbol) {
      return Failure(InvalidParameters);
    }
    if |primary.index| < p.WarmupBars() {
      return Failure(InsufficientData);
    }
    var common := Common(primary.index, pair.index);
    if |common| < p.WarmupBars() {
      return Failure(InsufficientData);
    }
    var x := StatsOf(root, p, LogPrices(log, primary, common), LogPrices(log, pair, common));
    var target := new Option<SignalDirection>[|common|](_ => None);
    assert target[..] == Blank(|common|);
    AssignWhere(target, LongMask(p, x), LONG);
    AssignWhere(target, ShortMask(p, x), SHORT);
    AssignWhere(target, RevertMask(p, x), FLAT);
    AssignWhere(target, UnusableMask(p, x), FLAT);
    var targets := ForwardFill(target[..], FLAT);
    assert targets == TargetsOf(p, x);
    var directions := FlatWhereMissing(Place(primary.index, common, Known(targets)));
    var reasons := Text(Place(primary.index, common, ReasonsOf(p, describe, x)));
    var indicators := WithColumn(WithColumn(WithColumn(WithColumn(NoColumns(|primary.index|),
      "pair_spread", Place(primary.index, common, x.spread)), "pair_zscore", Place(primary.index, common, x.z)),
      "pair_correlation", Place(primary.index, common, x.correlation)), "pair_hedge_ratio", Place(primary.index, common, x.beta));
    r := Success(SignalSet(Rows(directions, reasons), indicators));
  }

  // ---- the event machine

  /** Enter-long, enter-short, revert and unusable never hold together: exit_z < entry_z. */
  lemma EventsAreDisjoint(p: Params, z: Option<real>, correlation: Option<real>)
    requires p.Valid()
    ensures var l, s, r, u := EntersLong(p, z, correlation), EntersShort(p, z, correlation),
                              Reverts(p, z, correlation), Unusable(p, z, correlation);
            !(l && s) && !(l && r) && !(l && u) && !(s && r) && !(s && u) && !(r && u)
  {
    hide Decoupled;
  }

  /** Some event happened on row t. */
  predicate HasEvent(p: Params, x: Stats, t: nat)
    requires t < |x.z| == |x.correlation|
  {
    var z, c := x.z[t], x.correlation[t];
    EntersLong(p, z, c) || EntersShort(p, z, c) || Reverts(p, z, c) || Unusable(p, z, c)
  }

  lemma PairMachine(p: Params, x: Stats, t: nat)
    requires p.Valid() && t < |x.z| == |x.correlation|
    ensures var z, c := x.z[t], x.correlation[t];
            TargetsOf(p, x)[t] ==
            if EntersLong(p, z, c) then LONG
            else if EntersShort(p, z, c) then SHORT
            else if HasEvent(p, x, t) then FLAT
            else if t == 0 then FLAT
            else TargetsOf(p, x)[t - 1]
  {
    EventsAreDisjoint(p, x.z[t], x.correlation[t]);
    var target := FourMasks(LongMask(p, x), LONG, ShortMask(p, x), SHORT, RevertMask(p, x), FLAT, UnusableMask(p, x), FLAT);
    ForwardFillSteps(target, FLAT, t);
    hide ForwardFill, EntersLong, EntersShort, Reverts, Unusable;
  }

  /** Row s carries the latest event at or before row t. */
  ghost predicate LatestEvent(p: Params, x: Stats, s: nat, t: nat)
    requires t < |x.z| == |x.correlation|
  {
    s <= t && HasEvent(p, x, s) && forall u :: s < u <= t ==> !HasEvent(p, x, u)
  }

  lemma {:induction false} HeldSince(p: Params, x: Stats, s: nat, t: nat)
    requires p.Valid() && t < |x.z| == |x.correlation| && LatestEvent(p, x, s, t)
    ensures TargetsOf(p, x)[t] == TargetsOf(p, x)[s]
    decreases t - s
  {
    if s < t {
      PairMachine(p, x, t);
      EventsCover(p, x, t);
      hide TargetsOf, HasEvent;
      HeldSince(p, x, s, t - 1);
    }
  }

  lemma EventsCover(p: Params, x: Stats, t: nat)
    requires t < |x.z| == |x.correlation| && !HasEvent(p, x, t)
    ensures !EntersLong(p, x.z[t], x.correlation[t]) && !EntersShort(p, x.z[t], x.correlation[t])
  {
  }

  /** A common bar is long exactly when its latest event is an enter-long, and short when it is an enter-short. */
  lemma LatestEventDecides(p: Params, x: Stats, s: nat, t: nat)
    requires p.Valid() && t < |x.z| == |x.correlation| && LatestEvent(p, x, s, t)
    ensures TargetsOf(p, x)[t] == LONG <==> EntersLong(p, x.z[s], x.correlation[s])
    ensures TargetsOf(p, x)[t] == SHORT <==> EntersShort(p, x.z[s], x.correlation[s])
  {
    HeldSince(p, x, s, t);
    PairMachine(p, x, s);
    EventsAreDisjoint(p, x.z[s], x.correlation[s]);
    hide TargetsOf, HasEvent, EntersLong, EntersShort, Reverts, Unusable;
  }

  /** Before any event the target is flat. */
  lemma {:induction false} NoEventIsFlat(p: Params, x: Stats, t: nat)
    requires p.Valid() && t < |x.z| == |x.correlation| && forall u :: 0 <= u <= t ==> !HasEvent(p, x, u)
    ensures TargetsOf(p, x)[t] == FLAT
  {
    PairMachine(p, x, t);
    EventsCover(p, x, t);
    hide TargetsOf, HasEvent;
    if t > 0 {
      NoEventIsFlat(p, x, t - 1);
    }
  }

  lemma {:induction false} FindAbsent<T>(labels: seq<Timestamp>, c: seq<Option<T>>, t: Timestamp)
    requires |labels| == |c| && t !in labels
    ensures Find(labels, c, t) == None
  {
    if labels != [] {
      var n := |labels| - 1;
      FindAbsent(labels[..n], c[..n], t);
    }
  }

  /** Every primary bar that the pair lacks is flat. */
  lemma MissingBarsAreFlat(log: real -> real, root: real -> real, describe: (Event, real) -> string, p: Params,
                           primary: PriceSeries, pair: PriceSeries, i: nat)
    requires p.Valid() && primary.Shaped() && pair.Shaped() && i < |primary.index| && primary.index[i] !in pair.index
    ensures Signals(log, root, describe, p, primary, pair).rows[i].direction == FLAT
  {
    hide StatsOf, LogPrices, TargetsOf, ReasonsOf;
    var common := Common(primary.index, pair.index);
    var x := StatsOf(root, p, LogPrices(log, primary, common), LogPrices(log, pair, common));
    CommonMember(primary.index, pair.index, primary.index[i]);
    FindAbsent(common, Known(TargetsOf(p, x)), primary.index[i]);
  }

  // ---- the emitted rows

  lemma {:induction false} CommonIncreases(index: seq<Timestamp>, other: seq<Timestamp>)
    requires Increasing(index)
    ensures Increasing(Common(index, other))
  {
    if index != [] {
      var n := |index| - 1;
      CommonIncreases(index[..n], other);
      var c := Common(index[..n], other);
      forall i | 0 <= i < |c|
        ensures c[i] < index[n]
      {
        CommonMember(index[..n], other, c[i]);
        var j :| 0 <= j < n && index[..n][j] == c[i];
      }
    }
  }

  lemma {:induction false} FindLabelled<T>(labels: seq<Timestamp>, c: seq<Option<T>>, j: nat)
    requires |labels| == |c| && j < |labels| && Increasing(labels)
    ensures Find(labels, c, labels[j]) == c[j]
  {
    var n := |labels| - 1;
    if j < n {
      FindLabelled(labels[..n], c[..n], j);
    }
  }

  /** A bar that the pair has too carries the target of its common row. */
  lemma RowIsTarget(log: real -> real, root: real -> real, describe: (Event, real) -> string, p: Params,
                    primary: PriceSeries, pair: PriceSeries, i: nat, j: nat)
    requires p.Valid() && primary.Shaped() && pair.Shaped() && Increasing(primary.index) && i < |primary.index|
    requires j < |Common(primary.index, pair.index)| && Common(primary.index, pair.index)[j] == primary.index[i]
    ensures Signals(log, root, describe, p, primary, pair).rows[i].direction ==
            TargetsOf(p, StatsFor(log, root, p, primary, pair))[j]
  {
    hide StatsOf, LogPrices, TargetsOf, ReasonsOf, Common, Find;
    var common, x := Common(primary.index, pair.index), StatsFor(log, root, p, primary, pair);
    CommonIncreases(primary.index, pair.index);
    FindLabelled(common, Known(TargetsOf(p, x)), j);
  }

  lemma {:induction false} LatestExists(p: Params, x: Stats, u: nat, t: nat) returns (s: nat)
    requires u <= t < |x.z| == |x.correlation| && HasEvent(p, x, u)
    ensures LatestEvent(p, x, s, t)
    decreases t
  {
    hide HasEvent;
    if HasEvent(p, x, t) {
      s := t;
    } else {
      s := LatestExists(p, x, u, t - 1);
    }
  }

  /** The timestamp is common, and the latest event by then is an entry on the given side. */
  ghost predicate EnteredLast(p: Params, x: Stats, common: seq<Timestamp>, now: Timestamp, side: SignalDirection)
    requires |common| == |x.z| == |x.correlation|
  {
    exists j: nat, s: nat ::
      j < |common| && common[j] == now && LatestEvent(p, x, s, j) && Enters(p, x, s, side)
  }

  ghost predicate Enters(p: Params, x: Stats, s: nat, side: SignalDirection)
    requires s < |x.z| == |x.correlation|
  {
    match side
    case LONG => EntersLong(p, x.z[s], x.correlation[s])
    case SHORT => EntersShort(p, x.z[s], x.correlation[s])
    case FLAT => false
  }

  /**
   * What the strategy emits, bar by bar of the primary leg: long exactly when the pair has the bar and the
   * latest event by then is enter-long, short exactly when it is enter-short, and flat otherwise.
   */
  lemma EmittedRows(log: real -> real, root: real -> real, describe: (Event, real) -> string, p: Params,
                    primary: PriceSeries, pair: PriceSeries, i: nat)
    requires p.Valid() && primary.Shaped() && pair.Shaped() && Increasing(primary.index) && i < |primary.index|
    ensures var common, x := Common(primary.index, pair.index), StatsFor(log, root, p, primary, pair);
            var direction := Signals(log, root, describe, p, primary, pair).rows[i].direction;
            && (direction == LONG <==> EnteredLast(p, x, common, primary.index[i], LONG))
            && (direction == SHORT <==> EnteredLast(p, x, common, primary.index[i], SHORT))
  {
    hide Signals, StatsFor, TargetsOf, Common, LatestEvent, HasEvent, EntersLong, EntersShort;
    var common, x, now := Common(primary.index, pair.index), StatsFor(log, root, p, primary, pair), primary.index[i];
    if now in pair.index {
      CommonMember(primary.index, pair.index, now);
      var j :| 0 <= j < |common| && common[j] == now;
      RowIsTarget(log, root, describe, p, primary, pair, i, j);
      CommonIncreases(primary.index, pair.index);
      TargetEntered(p, x, common, j);
    } else {
      MissingBarsAreFlat(log, root, describe, p, primary, pair, i);
      CommonMember(primary.index, pair.index, now);
    }
  }

  lemma TargetEntered(p: Params, x: Stats, common: seq<Timestamp>, j: nat)
    requires p.Valid() && j < |common| == |x.z| == |x.correlation| && Increasing(common)
    ensures TargetsOf(p, x)[j] == LONG <==> EnteredLast(p, x, common, common[j], LONG)
    ensures TargetsOf(p, x)[j] == SHORT <==> EnteredLast(p, x, common, common[j], SHORT)
  {
    hide TargetsOf, HasEvent, EntersLong, EntersShort;
    if u: nat :| u <= j && HasEvent(p, x, u) {
      var s := LatestExists(p, x, u, j);
      LatestEventDecides(p, x, s, j);
      assert forall s': nat :: LatestEvent(p, x, s', j) ==> s' == s;
    } else {
      NoEventIsFlat(p, x, j);
    }
  }

  // ---- an entry threshold out of reach

  lemma SquareOfBound(z: real, entry: real)
    requires entry > 0.0 && (z <= -entry || z >= entry)
    ensures Times(z, z) >= Times(entry, entry)
  {
    TimesNegated(z);
    hide Times;
    if z > entry {
      SquareGrows(entry, z);
    } else if z < -entry {
      SquareGrows(entry, -z);
    }
  }

  /** With entry_z^2 > lookback - 1 no bar ever enters, on any pair of series. */
  lemma {:induction false} NeverEnters(root: real -> real, p: Params, a: Column, b: Column, t: nat)
    requires IsRoot(root) && p.Valid() && |a| == |b| && t < |a| && Times(p.entryZ, p.entryZ) > (p.lookback - 1) as real
    ensures TargetsOf(p, StatsOf(root, p, a, b))[t] == FLAT
  {
    hide TargetsOf, HasEvent, Times;
    var x := StatsOf(root, p, a, b);
    PairMachine(p, x, t);
    if x.z[t].Some? {
      ZScoreBound(root, x.spread, p.lookback, t);
      var z := x.z[t].value;
      if z <= -p.entryZ || z >= p.entryZ {
        SquareOfBound(z, p.entryZ);
      }
    }
    hide StatsOf;
    if t > 0 {
      NeverEnters(root, p, a, b, t - 1);
    }
  }

  /** With entry_z^2 > lookback - 1 every emitted row is flat, whatever the two series. */
  lemma NeverTrades(log: real -> real, root: real -> real, describe: (Event, real) -> string, p: Params,
                    primary: PriceSeries, pair: PriceSeries, i: nat)
    requires IsRoot(root) && p.Valid() && Times(p.entryZ, p.entryZ) > (p.lookback - 1) as real
    requires primary.Shaped() && pair.Shaped() && Increasing(primary.index) && i < |primary.index|
    ensures Signals(log, root, describe, p, primary, pair).rows[i].direction == FLAT
  {
    hide Signals, StatsOf, TargetsOf, Common, LogPrices, Times, IsRoot;
    var common, now := Common(primary.index, pair.index), primary.index[i];
    if now in pair.index {
      CommonMember(primary.index, pair.index, now);
      var j :| 0 <= j < |common| && common[j] == now;
      RowIsTarget(log, root, describe, p, primary, pair, i, j);
      NeverEnters(root, p, LogPrices(log, primary, common), LogPrices(log, pair, common), j);
    } else {
      MissingBarsAreFlat(log, root, describe, p, primary, pair, i);
    }
  }

  // ---- causality

  /** The intersection holds exactly the shared timestamps. */
  lemma {:induction false} CommonMember(index: seq<Timestamp>, other: seq<Timestamp>, x: Timestamp)
    ensures x in Common(index, other) <==> x in index && x in other
  {
    if index != [] {
      var n := |index| - 1;
      CommonMember(index[..n], other, x);
      assert index == index[..n] + [index[n]];
    }
  }

  lemma {:induction false} CommonAppend(a: seq<Timestamp>, b: seq<Timestamp>, other: seq<Timestamp>)
    ensures Common(a + b, other) == Common(a, other) + Common(b, other)
  {
    if b == [] {
      assert a + b == a;
    } else {
      var n := |b| - 1;
      CommonAppend(a, b[..n], other);
      assert (a + b)[..|a + b| - 1] == a + b[..n];
    }
  }

  /** Timestamps of the other leg that the index never reaches do not matter. */
  lemma {:induction false} CommonTrim(index: seq<Timestamp>, other: seq<Timestamp>, m: nat)
    requires m <= |other| && forall i, j :: 0 <= i < |index| && m <= j < |other| ==> index[i] < other[j]
    ensures Common(index, other) == Common(index, other[..m])
  {
    if index != [] {
      var n := |index| - 1;
      CommonTrim(index[..n], other, m);
      if index[n] in other {
        var j :| 0 <= j < |other| && other[j] == index[n];
        assert other[..m][j] == index[n];
      }
    }
  }

  lemma {:induction false} FindPrefix<T>(labels: seq<Timestamp>, c: seq<Option<T>>, m: nat, x: Timestamp)
    requires m <= |labels| == |c| && forall i :: m <= i < |labels| ==> labels[i] != x
    ensures Find(labels, c, x) == Find(labels[..m], c[..m], x)
    decreases |labels|
  {
    if m == |labels| {
      assert labels[..m] == labels && c[..m] == c;
    } else {
      var n := |labels| - 1;
      FindPrefix(labels[..n], c[..n], m, x);
      assert labels[..n][..m] == labels[..m] && c[..n][..m] == c[..m];
    }
  }

  /** A leg cut to its first k bars. */
  function Cut(series: PriceSeries, k: nat): (r: PriceSeries)
    requires series.Shaped() && k <= |series.index|
    ensures r.Shaped()
  {
    PriceSeries(series.symbol, series.index[..k], series.close[..k])
  }

  /** Both legs are cut at the same moment, the close of the primary's bar k - 1. */
  ghost predicate CutTogether(primary: PriceSeries, pair: PriceSeries, k: nat, m: nat) {
    && primary.Shaped() && pair.Shaped() && Increasing(primary.index) && Increasing(pair.index)
    && 0 < k <= |primary.index| && m <= |pair.index|
    && (forall j :: m <= j < |pair.index| ==> primary.index[k - 1] < pair.index[j])
  }

  lemma LogPricesPrefix(log: real -> real, series: PriceSeries, common: seq<Timestamp>, k: nat, n: nat)
    requires series.Shaped() && k <= |series.index| && n <= |common|
    requires forall i, j :: 0 <= i < n && k <= j < |series.index| ==> common[i] < series.index[j]
    ensures LogPrices(log, series, common)[..n] == LogPrices(log, Cut(series, k), common[..n])
  {
    KnownPrefix(series.close, k);
    forall i | 0 <= i < n
      ensures Find(series.index, Known(series.close), common[i]) == Find(series.index[..k], Known(series.close[..k]), common[i])
    {
      FindPrefix(series.index, Known(series.close), k, common[i]);
    }
    hide Find, Known;
  }

  lemma BetaPrefix(p: Params, a: Column, b: Column, n: nat)
    requires p.Valid() && n <= |a| == |b|
    ensures Beta(p, a, b)[..n] == Beta(p, a[..n], b[..n])
  {
    RollingPairPrefix(SlopeOf, a, b, p.lookback, n);
    hide RollingPair;
  }

  function FirstStats(x: Stats, n: nat): Stats
    requires n <= |x.spread| == |x.z| == |x.correlation| == |x.beta|
  {
    Stats(x.spread[..n], x.z[..n], x.correlation[..n], x.beta[..n])
  }

  lemma StatsPrefix(root: real -> real, p: Params, a: Column, b: Column, n: nat)
    requires p.Valid() && n <= |a| == |b|
    ensures FirstStats(StatsOf(root, p, a, b), n) == StatsOf(root, p, a[..n], b[..n])
  {
    var beta := Beta(p, a, b);
    var spread := Spread(a, beta, b);
    BetaPrefix(p, a, b, n);
    assert spread[..n] == Spread(a[..n], beta[..n], b[..n]) by { hide SpreadCell; }
    RollingZScorePrefix(root, spread, p.lookback, n);
    ShiftPrefix(a, n);
    ShiftPrefix(b, n);
    DifferencePrefix(a, Shift(a), n);
    DifferencePrefix(b, Shift(b), n);
    RollingCorrelationPrefix(root, Difference(a, Shift(a)), Difference(b, Shift(b)), p.lookback, n);
    hide Beta, Spread, RollingZScore, RollingCorrelation, Difference, Shift;
  }

  lemma TargetsPrefix(p: Params, x: Stats, n: nat)
    requires n <= |x.spread| == |x.z| == |x.correlation| == |x.beta|
    ensures TargetsOf(p, x)[..n] == TargetsOf(p, FirstStats(x, n))
  {
    var y := FirstStats(x, n);
    assert LongMask(p, x)[..n] == LongMask(p, y) && ShortMask(p, x)[..n] == ShortMask(p, y) by {
      hide EntersLong, EntersShort;
    }
    assert RevertMask(p, x)[..n] == RevertMask(p, y) && UnusableMask(p, x)[..n] == UnusableMask(p, y) by {
      hide Reverts, Unusable;
    }
    var l, s, r, u := LongMask(p, x), ShortMask(p, x), RevertMask(p, x), UnusableMask(p, x);
    FourMasksPrefix(l, LONG, s, SHORT, r, FLAT, u, FLAT, n);
    ForwardFillPrefix(FourMasks(l, LONG, s, SHORT, r, FLAT, u, FLAT), FLAT, n);
    hide LongMask, ShortMask, RevertMask, UnusableMask, FourMasks, ForwardFill;
  }

  lemma ReasonsPrefix(p: Params, describe: (Event, real) -> string, x: Stats, n: nat)
    requires n <= |x.spread| == |x.z| == |x.correlation| == |x.beta|
    ensures ReasonsOf(p, describe, x)[..n] == ReasonsOf(p, describe, FirstStats(x, n))
  {
    hide ReasonCell;
  }

  /** Placing on the first k bars needs only the first n common rows, when the others come later. */
  lemma PlacePrefix<T>(index: seq<Timestamp>, common: seq<Timestamp>, c: seq<Option<T>>, k: nat, n: nat)
    requires |common| == |c| && k <= |index| && n <= |common|
    requires forall i, j :: 0 <= i < k && n <= j < |common| ==> index[i] < common[j]
    ensures Place(index, common, c)[..k] == Place(index[..k], common[..n], c[..n])
  {
    forall i | 0 <= i < k
      ensures Find(common, c, index[i]) == Find(common[..n], c[..n], index[i])
    {
      FindPrefix(common, c, n, index[i]);
    }
    hide Find;
  }

  lemma FlatPrefix(c: seq<Option<SignalDirection>>, k: nat)
    requires k <= |c|
    ensures FlatWhereMissing(c)[..k] == FlatWhereMissing(c[..k])
  {
  }

  lemma FrameRowsPrefix(p: Params, describe: (Event, real) -> string, index: seq<Timestamp>, common: seq<Timestamp>,
                        x: Stats, k: nat, n: nat)
    requires |common| == |x.spread| == |x.z| == |x.correlation| == |x.beta| && k <= |index| && n <= |common|
    requires forall i, j :: 0 <= i < k && n <= j < |common| ==> index[i] < common[j]
    ensures FrameOf(p, describe, index, common, x).rows[..k] ==
            FrameOf(p, describe, index[..k], common[..n], FirstStats(x, n)).rows
  {
    var targets, reasons := Known(TargetsOf(p, x)), ReasonsOf(p, describe, x);
    TargetsPrefix(p, x, n);
    ReasonsPrefix(p, describe, x, n);
    KnownPrefix(TargetsOf(p, x), n);
    PlacePrefix(index, common, targets, k, n);
    PlacePrefix(index, common, reasons, k, n);
    FlatPrefix(Place(index, common, targets), k);
    TextPrefix(Place(index, common, reasons), k);
    RowsPrefix(FlatWhereMissing(Place(index, common, targets)), Text(Place(index, common, reasons)), k);
    hide TargetsOf, ReasonsOf, Known, Place, FlatWhereMissing, Text, Rows, WithColumn, NoColumns;
  }

  lemma FrameIndicatorsPrefix(p: Params, describe: (Event, real) -> string, index: seq<Timestamp>, common: seq<Timestamp>,
                              x: Stats, k: nat, n: nat)
    requires |common| == |x.spread| == |x.z| == |x.correlation| == |x.beta| && k <= |index| && n <= |common|
    requires forall i, j :: 0 <= i < k && n <= j < |common| ==> index[i] < common[j]
    ensures FrameOf(p, describe, index, common, x).indicators[..k] ==
            FrameOf(p, describe, index[..k], common[..n], FirstStats(x, n)).indicators
  {
    hide TargetsOf, ReasonsOf, Known, Place, FlatWhereMissing, Text, Rows, WithColumn, NoColumns;
    PlacePrefix(index, common, x.spread, k, n);
    PlacePrefix(index, common, x.z, k, n);
    PlacePrefix(index, common, x.correlation, k, n);
    PlacePrefix(index, common, x.beta, k, n);
    var c0 := NoColumns(|index|);
    NoColumnsPrefix(|index|, k);
    var c1 := WithColumn(c0, "pair_spread", Place(index, common, x.spread));
    var c2 := WithColumn(c1, "pair_zscore", Place(index, common, x.z));
    var c3 := WithColumn(c2, "pair_correlation", Place(index, common, x.correlation));
    WithColumnPrefix(c0, "pair_spread", Place(index, common, x.spread), k);
    WithColumnPrefix(c1, "pair_zscore", Place(index, common, x.z), k);
    WithColumnPrefix(c2, "pair_correlation", Place(index, common, x.correlation), k);
    WithColumnPrefix(c3, "pair_hedge_ratio", Place(index, common, x.beta), k);
  }

  /** The common timestamps of the cut legs are the first ones of the full legs; the others come after the cut. */
  lemma CutCommon(primary: PriceSeries, pair: PriceSeries, k: nat, m: nat)
    requires CutTogether(primary, pair, k, m)
    ensures var c, c' := Common(primary.index, pair.index), Common(primary.index[..k], pair.index[..m]);
            && |c'| <= |c| && c[..|c'|] == c'
            && (forall i :: |c'| <= i < |c| ==> c[i] > primary.index[k - 1])
            && (forall i :: 0 <= i < |c'| ==> c[i] <= primary.index[k - 1])
  {
    var head, tail := primary.index[..k], primary.index[k..];
    assert primary.index == head + tail;
    CommonAppend(head, tail, pair.index);
    CommonTrim(head, pair.index, m);
    var c, c' := Common(head, pair.index[..m]), Common(tail, pair.index);
    CommonWithin(head, pair.index[..m], c);
    CommonWithin(tail, pair.index, c');
    hide Common;
    forall i | 0 <= i < |c|
      ensures c[i] <= primary.index[k - 1]
    {
      var j :| 0 <= j < k && head[j] == c[i];
    }
    forall i | 0 <= i < |c'|
      ensures c'[i] > primary.index[k - 1]
    {
      var j :| 0 <= j < |tail| && tail[j] == c'[i];
    }
  }

  lemma CommonWithin(index: seq<Timestamp>, other: seq<Timestamp>, c: seq<Timestamp>)
    requires c == Common(index, other)
    ensures forall i :: 0 <= i < |c| ==> c[i] in index
  {
    forall i | 0 <= i < |c|
      ensures c[i] in index
    {
      CommonMember(index, other, c[i]);
    }
    hide Common;
  }

  /** The signals of legs cut at the same moment are the truncated signals of the full legs. */
  lemma SignalsPrefix(log: real -> real, root: real -> real, describe: (Event, real) -> string, p: Params,
                      primary: PriceSeries, pair: PriceSeries, k: nat, m: nat)
    requires p.Valid() && CutTogether(primary, pair, k, m)
    ensures Signals(log, root, describe, p, Cut(primary, k), Cut(pair, m)) ==
            FirstRows(Signals(log, root, describe, p, primary, pair), k)
  {
    hide Common, StatsOf, LogPrices, FrameOf;
    CutCommon(primary, pair, k, m);
    var c, c' := Common(primary.index, pair.index), Common(primary.index[..k], pair.index[..m]);
    var n := |c'|;
    var a, b := LogPrices(log, primary, c), LogPrices(log, pair, c);
    LogPricesPrefix(log, primary, c, k, n);
    LogPricesPrefix(log, pair, c, m, n);
    StatsPrefix(root, p, a, b, n);
    var x := StatsOf(root, p, a, b);
    FrameRowsPrefix(p, describe, primary.index, c, x, k, n);
    FrameIndicatorsPrefix(p, describe, primary.index, c, x, k, n);
  }
}
