/** Portfolio valuation: holdings.py. */
module Holdings {
  import opened Prelude
  import opened RealMath
  import opened Statistics
  import opened Weights
  import opened Concentration
  import opened Instruments

  /** The instrument universe: which symbols exist, and the sector of each where it has one. */
  datatype Universe = Universe(known: string -> bool, sector: string -> Option<string>)

  /** The universe the source ships with. */
  function Listed(): Universe {
    Universe((s: string) => Lookup(INSTRUMENTS, s).Some?,
             (s: string) => match Lookup(INSTRUMENTS, s) case None => None case Some(i) => i.sector)
  }

  datatype Holding = Holding(symbol: string, quantity: real, costBasis: Option<real>)

  /** What Holding.__post_init__ accepts. */
  function MakeHolding(u: Universe, h: Holding): Result<Holding> {
    if !u.known(h.symbol) then Failure(UnknownSymbol)
    else if h.quantity <= 0.0 then Failure(InvalidRequest)
    else if h.costBasis.Some? && h.costBasis.value < 0.0 then Failure(InvalidRequest)
    else Success(h)
  }

  datatype Portfolio = Portfolio(holdings: seq<Holding>, benchmark: string)
  {
    /** What construction guarantees: holdings, each of a positive quantity, at most one row a symbol. */
    ghost predicate Valid() {
      && holdings != []
      && (forall i :: 0 <= i < |holdings| ==> holdings[i].quantity > 0.0)
      && (forall i, j :: 0 <= i < j < |holdings| ==> holdings[i].symbol != holdings[j].symbol)
    }
  }

  function MakePortfolio(u: Universe, holdings: seq<Holding>, benchmark: string): Result<Portfolio> {
    if holdings == [] then Failure(InvalidRequest)
    else if exists i, j :: 0 <= i < j < |holdings| && holdings[i].symbol == holdings[j].symbol then Failure(InvalidRequest)
    else if !u.known(benchmark) then Failure(UnknownSymbol)
    else Success(Portfolio(holdings, benchmark))
  }

  /** A holding is accepted as it is exactly when its symbol is known, its quantity positive and its cost, if any, not negative. */
  lemma HoldingAccepts(u: Universe, h: Holding)
    ensures MakeHolding(u, h) == Success(h) <==>
              u.known(h.symbol) && h.quantity > 0.0 && (h.costBasis == None || h.costBasis.value >= 0.0)
    ensures MakeHolding(u, h) == Failure(UnknownSymbol) <==> !u.known(h.symbol)
    ensures MakeHolding(u, h).Success? ==> MakeHolding(u, h).value == h
  {
  }

  /** A portfolio is accepted exactly when it holds something, no symbol twice, against a known benchmark. */
  lemma PortfolioAccepts(u: Universe, holdings: seq<Holding>, benchmark: string)
    ensures MakePortfolio(u, holdings, benchmark) == Success(Portfolio(holdings, benchmark)) <==>
              && holdings != [] && u.known(benchmark)
              && forall i, j :: 0 <= i < j < |holdings| ==> holdings[i].symbol != holdings[j].symbol
    ensures MakePortfolio(u, holdings, benchmark).Success? ==> MakePortfolio(u, holdings, benchmark).value == Portfolio(holdings, benchmark)
  {
  }

  datatype PositionValue = PositionValue(
    symbol: string, quantity: real, price: real, marketValue: real, weight: real,
    costBasis: Option<real>, unrealizedPnl: Option<real>, unrealizedReturn: Option<real>)

  predicate Priced(holdings: seq<Holding>, prices: map<string, real>) {
    forall i :: 0 <= i < |holdings| ==> holdings[i].symbol in prices
  }

  /** { symbol: quantity * price }. */
  function MarketValues(holdings: seq<Holding>, prices: map<string, real>): (r: Vector)
    requires Priced(holdings, prices)
    ensures |r| == |holdings|
  {
    seq(|holdings|, i requires 0 <= i < |holdings| =>
      Entry(holdings[i].symbol, Times(holdings[i].quantity, prices[holdings[i].symbol])))
  }

  function PnlReturn(pnl: real, cost: real): Option<real> {
    if cost > EPSILON then Some(pnl / cost) else None
  }

  function ValueOf(h: Holding, price: real, marketValue: real, weight: real): PositionValue {
    var cost := MapCost(h);
    PositionValue(h.symbol, h.quantity, price, marketValue, weight, h.costBasis,
                  match cost case None => None case Some(c) => Some(marketValue - c),
                  match cost case None => None case Some(c) => PnlReturn(marketValue - c, c))
  }

  /** quantity * cost_basis, where a cost was recorded. */
  function MapCost(h: Holding): Option<real> {
    match h.costBasis
    case None => None
    case Some(c) => Some(Times(h.quantity, c))
  }

  /** The total cost, which exists only when every holding has one. */
  function TotalCost(holdings: seq<Holding>): Option<real> {
    if holdings == [] then Some(0.0)
    else
      var n := |holdings| - 1;
      var before, last := TotalCost(holdings[..n]), MapCost(holdings[n]);
      if before.Some? && last.Some? then Some(before.value + last.value) else None
  }

  datatype Allocation = Allocation(
    positions: seq<PositionValue>, totalValue: real, totalCost: Option<real>, weights: Vector,
    concentration: Summary, sectors: SectorExposure)

  /** Portfolio.value: the errors in their order, else every position with its weight. */
  function Value(u: Universe, p: Portfolio, prices: map<string, real>, topN: nat): Result<Allocation> {
    if !Priced(p.holdings, prices) then Failure(InvalidRequest)
    else if exists i :: 0 <= i < |p.holdings| && prices[p.holdings[i].symbol] <= 0.0 then Failure(InvalidRequest)
    else
      var values := MarketValues(p.holdings, prices);
      var total := Total(values);
      if total <= EPSILON then Failure(InvalidRequest)
      else
        var weights := Divided(values, total);
        match Summarise(weights, topN)
        case Failure(e) => Failure(e)
        case Success(summary) =>
          Success(Allocation(
            seq(|p.holdings|, i requires 0 <= i < |p.holdings| =>
              ValueOf(p.holdings[i], prices[p.holdings[i].symbol], values[i].weight, weights[i].weight)),
            total, TotalCost(p.holdings), weights, summary, ExposureOf(u, weights)))
  }

  // ---- from weights back to holdings

  /** weight * total / price: fractional units, unlike an order's. */
  function QuantityFor(weight: real, total: real, price: real): real
    requires price != 0.0
  {
    Times(weight, total) / price
  }

  /** One holding per positive weight, in order; the first that cannot be built is the error. */
  function HoldingsFor(u: Universe, weights: Vector, prices: map<string, real>, total: real): Result<seq<Holding>> {
    if weights == [] then Success([])
    else
      var n := |weights| - 1;
      var e := weights[n];
      match HoldingsFor(u, weights[..n], prices, total)
      case Failure(error) => Failure(error)
      case Success(before) =>
        if e.weight <= 0.0 then Success(before)
        else if e.symbol !in prices then Failure(KeyMissing)
        else if prices[e.symbol] == 0.0 then Failure(DivisionByZero)
        else
          match MakeHolding(u, Holding(e.symbol, QuantityFor(e.weight, total, prices[e.symbol]), None))
          case Failure(error) => Failure(error)
          case Success(h) => Success(before + [h])
  }

  /** Portfolio.from_weights. */
  function FromWeights(u: Universe, weights: Vector, prices: map<string, real>, total: real, benchmark: string): Result<Portfolio> {
    match HoldingsFor(u, weights, prices, total)
    case Failure(error) => Failure(error)
    case Success(holdings) =>
      if holdings == [] then Failure(InvalidRequest) else MakePortfolio(u, holdings, benchmark)
  }

  lemma QuantityForPositive(weight: real, total: real, price: real)
    requires weight > 0.0 && total > 0.0 && price > 0.0
    ensures QuantityFor(weight, total, price) > 0.0
    ensures Times(QuantityFor(weight, total, price), price) == Times(weight, total)
  {
    TimesPositive(weight, total);
    var x := Times(weight, total);
    DivMul(x, price);
    hide Times;
    var q := x / price;
    if q <= 0.0 {
      MulMono(q, 0.0, price);
    }
  }

  lemma MarketValuesAppend(holdings: seq<Holding>, h: Holding, prices: map<string, real>)
    requires Priced(holdings, prices) && h.symbol in prices
    ensures Priced(holdings + [h], prices)
    ensures MarketValues(holdings + [h], prices) ==
            MarketValues(holdings, prices) + [Entry(h.symbol, Times(h.quantity, prices[h.symbol]))]
  {
    hide Times;
  }

  lemma ScaledAppend(v: Vector, e: Entry, k: real)
    ensures Scaled(v + [e], k) == Scaled(v, k) + [Entry(e.symbol, Times(e.weight, k))]
  {
    hide Times;
  }

  ghost predicate Buildable(u: Universe, weights: Vector, prices: map<string, real>) {
    forall i :: 0 <= i < |weights| && weights[i].weight > 0.0 ==>
      u.known(weights[i].symbol) && weights[i].symbol in prices && prices[weights[i].symbol] > 0.0
  }

  /** The holdings of a weight vector are worth exactly the weights on its support, times the total. */
  lemma {:induction false} HoldingsAreWorth(u: Universe, weights: Vector, prices: map<string, real>, total: real)
    requires Buildable(u, weights, prices) && total > 0.0
    ensures HoldingsFor(u, weights, prices, total).Success?
    ensures var hs := HoldingsFor(u, weights, prices, total).value;
            && Priced(hs, prices)
            && (forall i :: 0 <= i < |hs| ==> hs[i].quantity > 0.0 && prices[hs[i].symbol] > 0.0)
            && MarketValues(hs, prices) == Scaled(Support(weights), total)
  {
    if weights != [] {
      var n := |weights| - 1;
      var e := weights[n];
      assert forall i :: 0 <= i < n ==> weights[..n][i] == weights[i];
      HoldingsAreWorth(u, weights[..n], prices, total);
      if e.weight > 0.0 {
        QuantityForPositive(e.weight, total, prices[e.symbol]);
      }
      hide QuantityFor, Times;
      if e.weight > 0.0 {
        var h := Holding(e.symbol, QuantityFor(e.weight, total, prices[e.symbol]), None);
        MarketValuesAppend(HoldingsFor(u, weights[..n], prices, total).value, h, prices);
        ScaledAppend(Support(weights[..n]), e, total);
      }
      hide MarketValues, Scaled;
    }
  }

  // ---- valuation

  lemma {:induction false} ValuesPositive(holdings: seq<Holding>, prices: map<string, real>)
    requires Priced(holdings, prices)
    requires forall i :: 0 <= i < |holdings| ==> holdings[i].quantity > 0.0 && prices[holdings[i].symbol] > 0.0
    ensures NonNegative(MarketValues(holdings, prices))
    ensures forall i :: 0 <= i < |holdings| ==> MarketValues(holdings, prices)[i].weight > 0.0
  {
    forall i | 0 <= i < |holdings|
      ensures Times(holdings[i].quantity, prices[holdings[i].symbol]) > 0.0
    {
      TimesPositive(holdings[i].quantity, prices[holdings[i].symbol]);
    }
    hide Times;
  }

  lemma DividedKeepsSign(v: Vector, total: real)
    requires total > 0.0 && NonNegative(v)
    ensures NonNegative(Divided(v, total))
    ensures forall i :: 0 <= i < |v| && v[i].weight > 0.0 ==> Divided(v, total)[i].weight > 0.0
  {
    forall i | 0 <= i < |v|
      ensures v[i].weight / total >= 0.0 && (v[i].weight > 0.0 ==> v[i].weight / total > 0.0)
    {
      DivMul(v[i].weight, total);
      QuotientAtLeast(v[i].weight, total, 0.0);
    }
  }

  /** The weights of a valued portfolio are a distinct, positive allocation that sums to one. */
  lemma WeightsAllocate(u: Universe, p: Portfolio, prices: map<string, real>, topN: nat)
    requires p.Valid() && Value(u, p, prices, topN).Success?
    ensures var w := Value(u, p, prices, topN).value.weights;
            Allocates(w) && Distinct(w) && |w| == |p.holdings| && forall i :: 0 <= i < |w| ==> w[i].weight > 0.0
  {
    hide Times, Summarise, ExposureOf, ValueOf, Total;
    var values := MarketValues(p.holdings, prices);
    ValuesPositive(p.holdings, prices);
    DividedSumsToOne(values);
    DividedKeepsSign(values, Total(values));
  }

  /** One row of a valuation, in the numbers of its holding. */
  ghost predicate Values(x: PositionValue, h: Holding, price: real, total: real) {
    && x.symbol == h.symbol && x.quantity == h.quantity && x.price == price && x.costBasis == h.costBasis
    && x.marketValue == Times(h.quantity, price) && Times(x.weight, total) == x.marketValue
    && match h.costBasis
       case None => x.unrealizedPnl == None && x.unrealizedReturn == None
       case Some(c) =>
         var cost := Times(h.quantity, c);
         && x.unrealizedPnl == Some(x.marketValue - cost)
         && if cost > 0.000000001 then x.unrealizedReturn.Some? && Times(x.unrealizedReturn.value, cost) == x.marketValue - cost
            else x.unrealizedReturn == None
  }

  lemma QuotientTimes(x: real, y: real)
    requires y != 0.0
    ensures Times(x / y, y) == x
  {
    DivMul(x, y);
  }

  lemma ValueOfMeans(h: Holding, price: real, value: real, total: real)
    requires total > 0.0 && value == Times(h.quantity, price)
    ensures Values(ValueOf(h, price, value, value / total), h, price, total)
    ensures ValueOf(h, price, value, value / total).weight == value / total
  {
    hide Times;
    QuotientTimes(value, total);
    if h.costBasis.Some? {
      var cost := Times(h.quantity, h.costBasis.value);
      if cost > 0.000000001 {
        QuotientTimes(value - cost, cost);
      }
    }
  }

  /** A portfolio that is not empty is valued exactly when every holding has a positive price and they are worth more than 1e-9. */
  lemma ValueAccepts(u: Universe, p: Portfolio, prices: map<string, real>, topN: nat)
    requires p.holdings != []
    ensures Value(u, p, prices, topN).Success? <==>
              && (forall i :: 0 <= i < |p.holdings| ==> p.holdings[i].symbol in prices && prices[p.holdings[i].symbol] > 0.0)
              && Total(MarketValues(p.holdings, prices)) > 0.000000001
    ensures Value(u, p, prices, topN).Failure? ==> Value(u, p, prices, topN).error == InvalidRequest
  {
    hide ExposureOf, TotalCost, ValueOf, Total, Times, Sort;
  }

  /** Every holding appears in order, valued at its price, and the summaries are those of the weights. */
  lemma ValueMeans(u: Universe, p: Portfolio, prices: map<string, real>, topN: nat)
    requires Value(u, p, prices, topN).Success?
    ensures var a := Value(u, p, prices, topN).value;
            && |a.positions| == |p.holdings| == |a.weights|
            && (forall i :: 0 <= i < |p.holdings| ==>
                  && p.holdings[i].symbol in prices
                  && Values(a.positions[i], p.holdings[i], prices[p.holdings[i].symbol], a.totalValue)
                  && a.weights[i] == Entry(p.holdings[i].symbol, a.positions[i].weight))
            && a.totalValue == Total(MarketValues(p.holdings, prices)) > 0.000000001
            && Summarise(a.weights, topN) == Success(a.concentration)
            && a.sectors == ExposureOf(u, a.weights)
  {
    hide ExposureOf, Summarise, TotalCost, ValueOf, Total, Values, Times;
    var a := Value(u, p, prices, topN).value;
    forall i | 0 <= i < |p.holdings|
      ensures Values(a.positions[i], p.holdings[i], prices[p.holdings[i].symbol], a.totalValue)
      ensures a.weights[i] == Entry(p.holdings[i].symbol, a.positions[i].weight)
    {
      var values := MarketValues(p.holdings, prices);
      assert values[i].weight == Times(p.holdings[i].quantity, prices[p.holdings[i].symbol]);
      ValueOfMeans(p.holdings[i], prices[p.holdings[i].symbol], values[i].weight, a.totalValue);
    }
  }

  /** The positions add up: market values to the total, and, when every cost is known, PnL to value less cost. */
  function PnlSum(positions: seq<PositionValue>): Option<real> {
    if positions == [] then Some(0.0)
    else
      var n := |positions| - 1;
      var before := PnlSum(positions[..n]);
      if before.Some? && positions[n].unrealizedPnl.Some? then Some(before.value + positions[n].unrealizedPnl.value) else None
  }

  lemma {:induction false} PnlOfPrefix(holdings: seq<Holding>, prices: map<string, real>, weights: Vector, positions: seq<PositionValue>)
    requires Priced(holdings, prices) && |positions| == |holdings| == |weights|
    requires forall i :: 0 <= i < |holdings| ==>
               positions[i] == ValueOf(holdings[i], prices[holdings[i].symbol], MarketValues(holdings, prices)[i].weight, weights[i].weight)
    ensures match TotalCost(holdings)
            case None => PnlSum(positions) == None
            case Some(cost) => PnlSum(positions) == Some(Total(MarketValues(holdings, prices)) - cost)
  {
    if holdings != [] {
      var n := |holdings| - 1;
      assert MarketValues(holdings, prices)[..n] == MarketValues(holdings[..n], prices);
      PnlOfPrefix(holdings[..n], prices, weights[..n], positions[..n]);
      assert positions[n] == ValueOf(holdings[n], prices[holdings[n].symbol], MarketValues(holdings, prices)[n].weight, weights[n].weight);
      hide Times, PnlReturn, MarketValues;
    }
  }

  lemma PnlAddsUp(u: Universe, p: Portfolio, prices: map<string, real>, topN: nat)
    requires Value(u, p, prices, topN).Success?
    ensures var a := Value(u, p, prices, topN).value;
            match a.totalCost
            case None => PnlSum(a.positions) == None
            case Some(cost) => PnlSum(a.positions) == Some(a.totalValue - cost)
  {
    hide ExposureOf, Summarise, TotalCost, PnlSum, ValueOf, MapCost;
    var a := Value(u, p, prices, topN).value;
    PnlOfPrefix(p.holdings, prices, a.weights, a.positions);
  }

  // ---- sectors

  /** The label reserved for what has no sector. */
  const UNCLASSIFIED: string := "Unclassified"

  datatype SectorExposure = SectorExposure(
    sectors: Vector, classified: real, unclassified: real, unclassifiedSymbols: seq<string>)

  datatype Buckets = Buckets(sectors: Vector, unclassified: seq<string>, weight: real)

  function AddTo(u: Universe, b: Buckets, e: Entry): Buckets {
    match u.sector(e.symbol)
    case None => b.(unclassified := b.unclassified + [e.symbol], weight := b.weight + e.weight)
    case Some(s) => b.(sectors := Put(b.sectors, s, OrZero(At(b.sectors, s)) + e.weight))
  }

  function Bucketed(u: Universe, v: Vector): Buckets {
    if v == [] then Buckets([], [], 0.0) else AddTo(u, Bucketed(u, v[..|v| - 1]), v[|v| - 1])
  }

  /** The amounts under every key but one. */
  function TotalExcept(v: Vector, name: string): real {
    if v == [] then 0.0
    else
      var n := |v| - 1;
      TotalExcept(v[..n], name) + if v[n].symbol == name then 0.0 else v[n].weight
  }

  function Finish(b: Buckets): SectorExposure {
    var sectors := if b.weight > EPSILON then Put(b.sectors, UNCLASSIFIED, b.weight) else b.sectors;
    SectorExposure(sectors, TotalExcept(sectors, UNCLASSIFIED), b.weight, b.unclassified)
  }

  function ExposureOf(u: Universe, v: Vector): SectorExposure {
    Finish(Bucketed(u, v))
  }

  /** sector_exposure, with its accumulating loop; the dictionary keeps insertion order. */
  method ComputeExposure(u: Universe, weights: Vector) returns (r: SectorExposure)
    ensures r == ExposureOf(u, weights)
  {
    hide Put, At, TotalExcept;
    var sectors: Vector := [];
    var unclassified: seq<string> := [];
    var unclassifiedWeight := 0.0;
    for i := 0 to |weights|
      invariant Buckets(sectors, unclassified, unclassifiedWeight) == Bucketed(u, weights[..i])
    {
      var e := weights[i];
      assert weights[..i + 1][..i] == weights[..i];
      match u.sector(e.symbol) {
        case None =>
          unclassified := unclassified + [e.symbol];
          unclassifiedWeight := unclassifiedWeight + e.weight;
        case Some(sector) =>
          sectors := Put(sectors, sector, OrZero(At(sectors, sector)) + e.weight);
      }
    }
    assert weights[..|weights|] == weights;
    if unclassifiedWeight > EPSILON {
      sectors := Put(sectors, UNCLASSIFIED, unclassifiedWeight);
    }
    r := SectorExposure(sectors, TotalExcept(sectors, UNCLASSIFIED), unclassifiedWeight, unclassified);
  }

  /** The weight of the holdings for which f holds. */
  ghost function WeightWhere(f: string -> bool, v: Vector): real {
    if v == [] then 0.0
    else
      var n := |v| - 1;
      WeightWhere(f, v[..n]) + if f(v[n].symbol) then v[n].weight else 0.0
  }

  ghost function InSector(u: Universe, s: string): string -> bool {
    x => u.sector(x) == Some(s)
  }

  ghost function NoSector(u: Universe): string -> bool {
    x => u.sector(x) == None
  }

  lemma {:induction false} BucketsDistinct(u: Universe, v: Vector)
    ensures Distinct(Bucketed(u, v).sectors)
  {
    if v != [] {
      var n := |v| - 1;
      BucketsDistinct(u, v[..n]);
      var b := Bucketed(u, v[..n]);
      match u.sector(v[n].symbol) {
        case None =>
        case Some(t) => PutKeepsDistinct(b.sectors, t, OrZero(At(b.sectors, t)) + v[n].weight);
      }
      hide Put, At, Distinct;
    }
  }

  /** What no bucket got is the weight of the holdings without a sector. */
  lemma {:induction false} UnclassifiedHolds(u: Universe, v: Vector)
    ensures Bucketed(u, v).weight == WeightWhere(NoSector(u), v)
  {
    if v != [] {
      UnclassifiedHolds(u, v[..|v| - 1]);
      hide Put, At;
    }
  }

  /** A bucket of one entry more. */
  lemma BucketStep(u: Universe, b: Buckets, e: Entry, s: string)
    ensures At(AddTo(u, b, e).sectors, s) ==
            if u.sector(e.symbol) == Some(s) then Some(OrZero(At(b.sectors, s)) + e.weight) else At(b.sectors, s)
  {
    match u.sector(e.symbol) {
      case None =>
      case Some(t) => AtPut(b.sectors, t, OrZero(At(b.sectors, t)) + e.weight, s);
    }
    hide Put, At;
  }

  /** Each bucket holds the weight of its sector. */
  lemma {:induction false} BucketHolds(u: Universe, v: Vector, s: string)
    ensures OrZero(At(Bucketed(u, v).sectors, s)) == WeightWhere(InSector(u, s), v)
  {
    if v != [] {
      var n := |v| - 1;
      BucketHolds(u, v[..n], s);
      BucketStep(u, Bucketed(u, v[..n]), v[n], s);
      hide At, AddTo;
    }
  }

  lemma {:induction false} ExceptTotal(v: Vector, name: string)
    requires Distinct(v)
    ensures TotalExcept(v, name) == Total(v) - OrZero(At(v, name))
  {
    if v != [] {
      var n := |v| - 1;
      ExceptTotal(v[..n], name);
      AtMeans(v[..n], name);
    }
  }

  lemma StepTotal(u: Universe, b: Buckets, e: Entry)
    requires Distinct(b.sectors)
    ensures var c := AddTo(u, b, e); Total(c.sectors) + c.weight == Total(b.sectors) + b.weight + e.weight
  {
    match u.sector(e.symbol) {
      case None =>
      case Some(t) => TotalPut(b.sectors, t, OrZero(At(b.sectors, t)) + e.weight);
    }
    hide Put, At, Total, Distinct;
  }

  /** The symbols of a vector that have no sector, in order. */
  function Sectorless(u: Universe, v: Vector): seq<string> {
    if v == [] then []
    else Sectorless(u, v[..|v| - 1]) + if u.sector(v[|v| - 1].symbol) == None then [v[|v| - 1].symbol] else []
  }

  /** The remainder lists exactly the symbols without a sector, and weighs what they weigh. */
  lemma {:induction false} SectorlessRemain(u: Universe, v: Vector)
    ensures ExposureOf(u, v).unclassifiedSymbols == Sectorless(u, v)
    ensures ExposureOf(u, v).unclassified == WeightWhere((s: string) => u.sector(s) == None, v)
  {
    hide Put, At, TotalExcept;
    if v != [] {
      SectorlessRemain(u, v[..|v| - 1]);
    }
  }

  /** No weight goes missing between the buckets and the unclassified remainder. */
  lemma {:induction false} BucketsCover(u: Universe, v: Vector)
    ensures Total(Bucketed(u, v).sectors) + Bucketed(u, v).weight == Total(v)
  {
    if v != [] {
      var n := |v| - 1;
      BucketsCover(u, v[..n]);
      BucketsDistinct(u, v[..n]);
      StepTotal(u, Bucketed(u, v[..n]), v[n]);
      hide AddTo, Distinct;
    }
  }

  /** What is lost: the weight of a sector that happens to be called "Unclassified". */
  lemma ExposureTotal(u: Universe, v: Vector)
    ensures var x := ExposureOf(u, v);
            x.classified + x.unclassified == Total(v) - WeightWhere(InSector(u, UNCLASSIFIED), v)
  {
    var b := Bucketed(u, v);
    BucketHolds(u, v, UNCLASSIFIED);
    BucketsDistinct(u, v);
    BucketsCover(u, v);
    ExceptTotal(b.sectors, UNCLASSIFIED);
    PutKeepsDistinct(b.sectors, UNCLASSIFIED, b.weight);
    var put := Put(b.sectors, UNCLASSIFIED, b.weight);
    ExceptTotal(put, UNCLASSIFIED);
    TotalPut(b.sectors, UNCLASSIFIED, b.weight);
    AtPut(b.sectors, UNCLASSIFIED, b.weight, UNCLASSIFIED);
    hide Put, At, Distinct, TotalExcept, Total, Bucketed;
  }

  lemma {:induction false} SomethingThere(f: string -> bool, v: Vector)
    requires forall i :: 0 <= i < |v| ==> v[i].weight > 0.0
    ensures WeightWhere(f, v) >= 0.0
    ensures WeightWhere(f, v) == 0.0 <==> forall i :: 0 <= i < |v| ==> !f(v[i].symbol)
  {
    if v != [] {
      var n := |v| - 1;
      assert forall i :: 0 <= i < n ==> v[..n][i] == v[i];
      SomethingThere(f, v[..n]);
    }
  }

  lemma {:induction false} NothingThere(f: string -> bool, v: Vector)
    requires forall i :: 0 <= i < |v| ==> !f(v[i].symbol)
    ensures WeightWhere(f, v) == 0.0
  {
    if v != [] {
      var n := |v| - 1;
      assert forall i :: 0 <= i < n ==> v[..n][i] == v[i];
      NothingThere(f, v[..n]);
    }
  }

  lemma NoSectorIsReserved()
    ensures forall i :: i in INSTRUMENTS ==> i.sector != Some(UNCLASSIFIED)
  {
    assert |"Energy"| != |UNCLASSIFIED| && |"Information Technology"| != |UNCLASSIFIED| && |"Financials"| != |UNCLASSIFIED|;
  }

  /** Over the listed instruments classified and unclassified weight always make up the whole. */
  lemma ListedExposureIsComplete(v: Vector)
    ensures var x := ExposureOf(Listed(), v); x.classified + x.unclassified == Total(v)
  {
    var u := Listed();
    ExposureTotal(u, v);
    forall s: string
      ensures u.sector(s) != Some(UNCLASSIFIED)
    {
      NoSectorIsReserved();
      hide INSTRUMENTS;
    }
    NothingThere(InSector(u, UNCLASSIFIED), v);
    hide ExposureOf, WeightWhere;
  }

  /** For any universe, classified and unclassified weight make up the whole exactly when no held sector carries the reserved label. */
  lemma ExposureIsComplete(u: Universe, v: Vector)
    requires forall i :: 0 <= i < |v| ==> v[i].weight > 0.0
    ensures var x := ExposureOf(u, v);
            x.classified + x.unclassified == Total(v) <==>
              forall i :: 0 <= i < |v| ==> u.sector(v[i].symbol) != Some(UNCLASSIFIED)
  {
    ExposureTotal(u, v);
    SomethingThere(InSector(u, UNCLASSIFIED), v);
    hide ExposureOf, WeightWhere;
  }
}
