/** No look-ahead in the engine: what a run records up to a bar is a function of the bars and decisions up to it. */
module Causality {
  import opened Events
  import opened Ledger
  import opened Engine
  import opened Steps

  /** The two runs have the same first k bars, and deciders that agree on everything visible before bar k - 1 closes. */
  ghost predicate SamePast<D(!new)>(a: Env<D>, b: Env<D>, k: nat) {
    && a.Valid() && b.Valid() && k <= |a.bars| && k <= |b.bars|
    && a.symbol == b.symbol && a.config == b.config
    && a.index[..k] == b.index[..k] && a.bars[..k] == b.bars[..k]
    && forall memory: D, o: Observation :: o.bar + 1 < k ==> a.decide(memory, o) == b.decide(memory, o)
  }

  lemma SameBar<D(!new)>(a: Env<D>, b: Env<D>, k: nat, i: nat)
    requires SamePast(a, b, k) && i < k
    ensures a.bars[i] == b.bars[i] && a.index[i] == b.index[i] && a.Market(i) == b.Market(i)
  {
    assert a.bars[..k][i] == b.bars[..k][i] && a.index[..k][i] == b.index[..k][i];
  }

  /** Corrupting the future does not change the past: equal pasts give equal states, whatever follows. */
  lemma {:induction false} FutureIsInvisible<D(!new)>(a: Env<D>, b: Env<D>, memory: D, k: nat, i: nat)
    requires SamePast(a, b, k) && i < k
    ensures Reached(a, memory, i) == Reached(b, memory, i)
  {
    hide Decide, Settle, Mark;
    if i > 0 {
      FutureIsInvisible(a, b, memory, k, i - 1);
      SameDecide(a, b, Reached(a, memory, i - 1), k, i - 1);
    }
    var st := Entering(a, memory, i);
    assert st == Entering(b, memory, i);
    hide Entering;
    SameSettle(a, b, st, k, i);
    SameMark(a, b, Settle(a, st, i), k, i);
  }

  lemma SameDecide<D(!new)>(a: Env<D>, b: Env<D>, st: RunState<D>, k: nat, i: nat)
    requires SamePast(a, b, k) && i + 1 < k
    ensures Decide(a, st, i) == Decide(b, st, i)
  {
    hide PendingOrder;
    SameBar(a, b, k, i);
    SameBar(a, b, k, i + 1);
    assert Observe(a, st, i) == Observe(b, st, i);
    hide Observe;
  }

  lemma SameSettle<D(!new)>(a: Env<D>, b: Env<D>, st: RunState<D>, k: nat, i: nat)
    requires SamePast(a, b, k) && i < k
    ensures Settle(a, st, i) == Settle(b, st, i)
  {
    SameBar(a, b, k, i);
    hide Execute, ApplyFill;
  }

  lemma SameMark<D(!new)>(a: Env<D>, b: Env<D>, st: RunState<D>, k: nat, i: nat)
    requires SamePast(a, b, k) && i < k
    ensures Mark(a, st, i) == Mark(b, st, i)
  {
    SameBar(a, b, k, i);
    hide Equity, Exposure;
  }

  /** A later state extends an earlier one, and every later order, fill, warning and trade is dated after bar i. */
  ghost predicate Extends<D>(env: Env<D>, i: nat, st: RunState<D>, st': RunState<D>)
    requires env.Valid() && i < |env.bars|
  {
    var now := env.index[i];
    && st.equity <= st'.equity && st.exposure <= st'.exposure && st.positions <= st'.positions
    && st.orders <= st'.orders && st.fills <= st'.fills && st.warnings <= st'.warnings
    && st.portfolio.trades <= st'.portfolio.trades
    && (forall k :: |st.orders| <= k < |st'.orders| ==> st'.orders[k].timestamp > now)
    && (forall k :: |st.fills| <= k < |st'.fills| ==> st'.fills[k].timestamp > now)
    && (forall k :: |st.warnings| <= k < |st'.warnings| ==> st'.warnings[k].timestamp > now)
    && (forall k :: |st.portfolio.trades| <= k < |st'.portfolio.trades| ==> st'.portfolio.trades[k].exitTimestamp > now)
  }

  /** Everything a state has recorded is dated by `now`. */
  ghost predicate DatedBy<D>(st: RunState<D>, now: Timestamp) {
    && (forall o :: o in st.orders ==> o.timestamp <= now)
    && (forall f :: f in st.fills ==> f.timestamp <= now)
    && (forall w :: w in st.warnings ==> w.timestamp <= now)
    && (forall t :: t in st.portfolio.trades ==> t.exitTimestamp <= now)
  }

  lemma ExecutionDates(order: Order, market: MarketEvent, config: Config, cash: real)
    ensures var e := Execute(order, market, config, cash);
            && (e.Executed? ==> e.fill.timestamp == market.timestamp)
            && (e.Executed? ==> forall w :: w in e.warnings ==> w.timestamp == market.timestamp)
            && (e.Skipped? ==> e.warning.timestamp == market.timestamp)
  {
    hide CostModel.FillPrice, CostModel.Commission, CanAfford, MaxAffordable, Notional;
  }

  lemma TradeDates(p: Position, f: FillEvent, bar: int)
    requires f.quantity > 0.0
    ensures forall t :: t in Filled(p, f, bar).trades ==> t.exitTimestamp == f.timestamp
  {
    hide Share, GrossResult, ReturnPct, BlendedPrice, FillEvent.TotalCost;
  }

  /** One bar appends to the mark-to-market lists. */
  lemma MarksAppend<D>(env: Env<D>, memory: D, i: nat)
    requires env.Valid() && i + 1 < |env.bars|
    ensures var st, st' := Reached(env, memory, i), Reached(env, memory, i + 1);
            && |st'.equity| == |st.equity| + 1 && st.equity <= st'.equity
            && |st'.exposure| == |st.exposure| + 1 && st.exposure <= st'.exposure
            && |st'.positions| == |st.positions| + 1 && st.positions <= st'.positions
  {
    hide Settle, Decide, Equity, Exposure;
    var st := Reached(env, memory, i);
    var entering := Entering(env, memory, i + 1);
    DecideKeepsMarks(env, st, i);
    SettleShape(env, entering, i + 1);
    assert entering == Decide(env, st, i);
  }

  lemma DecideKeepsMarks<D>(env: Env<D>, st: RunState<D>, i: nat)
    requires env.Valid() && i + 1 < |env.bars|
    ensures var d := Decide(env, st, i);
            d.equity == st.equity && d.exposure == st.exposure && d.positions == st.positions
  {
    hide PendingOrder, Observe;
  }

  lemma {:induction false} LaterExtends<D>(env: Env<D>, memory: D, i: nat, j: nat)
    requires env.Valid() && i <= j < |env.bars| && Increasing(env.index)
    ensures Extends(env, i, Reached(env, memory, i), Reached(env, memory, j))
    decreases j - i
  {
    hide Reached, Execute, ApplyFill, OrderAt, Solo;
    if i < j {
      LaterExtends(env, memory, i, j - 1);
      BarExtends(env, memory, j - 1);
      assert env.index[i] <= env.index[j - 1];
      ExtendsTwice(env, i, j - 1, Reached(env, memory, i), Reached(env, memory, j - 1), Reached(env, memory, j));
    }
  }

  lemma ExtendsTwice<D>(env: Env<D>, i: nat, j: nat, a: RunState<D>, b: RunState<D>, c: RunState<D>)
    requires env.Valid() && i <= j < |env.bars| && env.index[i] <= env.index[j]
    requires Extends(env, i, a, b) && Extends(env, j, b, c)
    ensures Extends(env, i, a, c)
  {
    assert forall k :: 0 <= k < |b.orders| ==> c.orders[k] == b.orders[k];
    assert forall k :: 0 <= k < |b.fills| ==> c.fills[k] == b.fills[k];
    assert forall k :: 0 <= k < |b.warnings| ==> c.warnings[k] == b.warnings[k];
    assert forall k :: 0 <= k < |b.portfolio.trades| ==> c.portfolio.trades[k] == b.portfolio.trades[k];
  }

  lemma BarExtends<D>(env: Env<D>, memory: D, i: nat)
    requires env.Valid() && i + 1 < |env.bars| && Increasing(env.index)
    ensures Extends(env, i, Reached(env, memory, i), Reached(env, memory, i + 1))
  {
    hide Reached, Execute, ApplyFill, OrderAt, Solo, Filled;
    MarksAppend(env, memory, i);
    RunIsSolo(env, memory, i);
    NextBar(env, memory, i);
    OrderFacts(env, memory, i);
    var st := Reached(env, memory, i);
    if OrderAt(env, memory, i).Some? {
      var order := OrderAt(env, memory, i).value;
      ExecuteFacts(order, env.Market(i + 1), env.config, st.portfolio.cash);
      ExecutionDates(order, env.Market(i + 1), env.config, st.portfolio.cash);
      var e := ExecutionAt(env, memory, i);
      if e.Executed? {
        FillTrades(env.symbol, st.portfolio, e.fill, i + 1);
      }
    }
  }

  lemma FillTrades(symbol: string, l: Portfolio, f: FillEvent, bar: int)
    requires Solo(symbol, l) && f.symbol == symbol && f.quantity > 0.0
    ensures var l' := ApplyFill(l, f, bar);
            && l.trades <= l'.trades
            && forall k :: |l.trades| <= k < |l'.trades| ==> l'.trades[k].exitTimestamp == f.timestamp
  {
    FillKeepsSolo(symbol, l, f, bar);
    TradeDates(l.PositionOf(symbol), f, bar);
    hide ApplyFill, Filled;
  }

  /** Every order, fill, warning and trade recorded by bar i is dated at or before it. */
  lemma {:induction false} RecordsAreDated<D>(env: Env<D>, memory: D, i: nat)
    requires env.Valid() && i < |env.bars| && Increasing(env.index)
    ensures DatedBy(Reached(env, memory, i), env.index[i])
  {
    hide Reached, DatedBy;
    if i == 0 {
      FirstBarIsDated(env, memory);
    } else {
      RecordsAreDated(env, memory, i - 1);
      BarIsDated(env, memory, i - 1);
    }
  }

  lemma FirstBarIsDated<D>(env: Env<D>, memory: D)
    requires env.Valid()
    ensures DatedBy(Reached(env, memory, 0), env.index[0])
  {
    hide Reached;
    FirstBar(env, memory);
  }

  /** One bar records nothing dated after itself. */
  lemma BarIsDated<D>(env: Env<D>, memory: D, i: nat)
    requires env.Valid() && i + 1 < |env.bars| && Increasing(env.index)
    requires DatedBy(Reached(env, memory, i), env.index[i])
    ensures DatedBy(Reached(env, memory, i + 1), env.index[i + 1])
  {
    hide Reached, Execute, ApplyFill, OrderAt, Solo, Filled;
    RunIsSolo(env, memory, i);
    NextBar(env, memory, i);
    OrderFacts(env, memory, i);
    var st := Reached(env, memory, i);
    if OrderAt(env, memory, i).Some? {
      var order := OrderAt(env, memory, i).value;
      ExecuteFacts(order, env.Market(i + 1), env.config, st.portfolio.cash);
      ExecutionDates(order, env.Market(i + 1), env.config, st.portfolio.cash);
      var e := ExecutionAt(env, memory, i);
      if e.Executed? {
        FillTrades(env.symbol, st.portfolio, e.fill, i + 1);
        TradesDated(st.portfolio.trades, Reached(env, memory, i + 1).portfolio.trades, env.index[i], env.index[i + 1]);
      }
    }
  }

  lemma TradesDated(a: seq<Trade>, b: seq<Trade>, before: Timestamp, now: Timestamp)
    requires a <= b && before <= now && (forall t :: t in a ==> t.exitTimestamp <= before)
    requires forall k :: |a| <= k < |b| ==> b[k].exitTimestamp == now
    ensures forall t :: t in b ==> t.exitTimestamp <= now
  {
    forall t | t in b
      ensures t.exitTimestamp <= now
    {
      var k :| 0 <= k < |b| && b[k] == t;
      assert k < |a| ==> a[k] in a;
    }
  }

  /** b is a run over more bars; a stops after its first |a.bars|, with the same decisions in between. */
  ghost predicate Truncates<D(!new)>(a: Env<D>, b: Env<D>) {
    SamePast(a, b, |a.bars|) && Increasing(a.index) && Increasing(b.index) && !a.config.liquidateAtEnd
  }

  /**
   * Engine truncation. Without liquidation, running the first bars gives exactly the first equity, exposure
   * and position entries, and exactly the orders, fills, warnings and trades up to there, of any longer run
   * that agrees on those bars and on all but their last decision.
   */
  lemma Truncation<D(!new)>(a: Env<D>, b: Env<D>, memory: D)
    requires Truncates(a, b)
    ensures var k := |a.bars|;
            && Extends(b, k - 1, Run(a, memory), Run(b, memory))
            && |Run(a, memory).equity| == |Run(a, memory).exposure| == |Run(a, memory).positions| == k
            && DatedBy(Run(a, memory), a.index[k - 1])
  {
    hide Reached, Extends, Increasing, DatedBy;
    var k, n := |a.bars|, |b.bars|;
    RecordsAreDated(a, memory, k - 1);
    FutureIsInvisible(a, b, memory, k, k - 1);
    OnePointPerBar(a, memory, k - 1);
    LaterExtends(b, memory, k - 1, n - 1);
  }
}
