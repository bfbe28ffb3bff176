/** What-if reweighting: scenario.py. */
module Scenario {
  import opened Prelude
  import opened RealMath
  import opened Statistics
  import opened Weights
  import opened Concentration
  import opened Holdings

  const WEIGHT_EPSILON: real := 0.000000001

  /** One entry of a weight map as it was sent; None is anything but a finite number. */
  datatype Override = Override(symbol: string, value: Option<real>)

  /** validate_overrides: Success, or the first complaint in the order the checks are made. */
  function Validate(u: Universe, overrides: seq<Override>): Result<()> {
    if overrides == [] then Failure(InvalidRequest)
    else if exists i :: 0 <= i < |overrides| && overrides[i].value == None then Failure(InvalidRequest)
    else if exists i :: 0 <= i < |overrides| && overrides[i].value.value < 0.0 then Failure(InvalidRequest)
    else if exists i :: 0 <= i < |overrides| && !u.known(overrides[i].symbol) then Failure(UnknownSymbol)
    else Success(())
  }

  ghost predicate Wellformed(u: Universe, overrides: seq<Override>) {
    && overrides != []
    && forall i :: 0 <= i < |overrides| ==> && overrides[i].value.Some? && overrides[i].value.value >= 0.0
                                            && u.known(overrides[i].symbol)
  }

  lemma ValidateAccepts(u: Universe, overrides: seq<Override>)
    ensures Validate(u, overrides).Success? <==> Wellformed(u, overrides)
  {
  }

  /** A malformed map is refused as an invalid request, a well-formed one with an unknown symbol as that. */
  lemma ValidateComplains(u: Universe, overrides: seq<Override>)
    ensures Validate(u, overrides) == Failure(InvalidRequest) <==>
              overrides == [] || exists i :: 0 <= i < |overrides| && (overrides[i].value == None || overrides[i].value.value < 0.0)
    ensures Validate(u, overrides) == Failure(UnknownSymbol) <==>
              && overrides != [] && (exists i :: 0 <= i < |overrides| && !u.known(overrides[i].symbol))
              && forall i :: 0 <= i < |overrides| ==> overrides[i].value.Some? && overrides[i].value.value >= 0.0
  {
  }

  function Applied(base: Vector, overrides: seq<Override>): Vector {
    if overrides == [] then base
    else
      var n := |overrides| - 1;
      var before := Applied(base, overrides[..n]);
      match overrides[n].value
      case None => before
      case Some(w) => Put(before, overrides[n].symbol, w)
  }

  /** The normalised weights, and the sum that had to be divided out if it was not already one. */
  datatype Resolved = Resolved(weights: Vector, rescaled: Option<real>)

  function Resolve(u: Universe, base: Vector, overrides: seq<Override>): Result<Resolved> {
    match Validate(u, overrides)
    case Failure(e) => Failure(e)
    case Success(_) =>
      var combined := Applied(base, overrides);
      var total := Total(combined);
      if total <= WEIGHT_EPSILON then Failure(InvalidRequest)
      else Success(Resolved(Divided(combined, total), if Abs(total - 1.0) > WEIGHT_EPSILON then Some(total) else None))
  }

  /** resolve_weights, with the dictionary it overwrites entry by entry. */
  method ResolveWeights(u: Universe, base: Vector, overrides: seq<Override>) returns (r: Result<Resolved>)
    ensures r == Resolve(u, base, overrides)
  {
    ValidateAccepts(u, overrides);
    var checked := Validate(u, overrides);
    if checked.Failure? {
      return Failure(checked.error);
    }
    hide Put, Divided;
    var combined := base;
    for i := 0 to |overrides|
      invariant combined == Applied(base, overrides[..i])
    {
      assert overrides[..i + 1][..i] == overrides[..i];
      combined := Put(combined, overrides[i].symbol, overrides[i].value.value);
    }
    assert overrides[..|overrides|] == overrides;
    var total := Total(combined);
    if total <= WEIGHT_EPSILON {
      return Failure(InvalidRequest);
    }
    var notes := if Abs(total - 1.0) > WEIGHT_EPSILON then Some(total) else None;
    r := Success(Resolved(Divided(combined, total), notes));
  }

  /** The override of s, if it has one. */
  function OverrideOf(overrides: seq<Override>, s: string): Option<real> {
    if overrides == [] then None
    else
      var n := |overrides| - 1;
      if overrides[n].symbol == s then overrides[n].value else OverrideOf(overrides[..n], s)
  }

  ghost predicate Finite(overrides: seq<Override>) {
    forall i :: 0 <= i < |overrides| ==> overrides[i].value.Some?
  }

  /** Overridden symbols take their override, the others keep their weight, and nothing else appears. */
  lemma {:induction false} AppliedAt(base: Vector, overrides: seq<Override>, s: string)
    requires Finite(overrides)
    ensures At(Applied(base, overrides), s) ==
            if OverrideOf(overrides, s).Some? then OverrideOf(overrides, s) else At(base, s)
  {
    if overrides != [] {
      var n := |overrides| - 1;
      AppliedAt(base, overrides[..n], s);
      AtPut(Applied(base, overrides[..n]), overrides[n].symbol, overrides[n].value.value, s);
      hide Put, At;
    }
  }

  lemma {:induction false} AppliedKeeps(u: Universe, base: Vector, overrides: seq<Override>)
    requires Distinct(base) && NonNegative(base) && (overrides != [] ==> Wellformed(u, overrides))
    requires forall i :: 0 <= i < |base| ==> u.known(base[i].symbol)
    ensures var v := Applied(base, overrides);
            Distinct(v) && NonNegative(v) && forall i :: 0 <= i < |v| ==> u.known(v[i].symbol)
  {
    if overrides != [] {
      var n := |overrides| - 1;
      AppliedKeeps(u, base, overrides[..n]);
      PutKeepsDistinct(Applied(base, overrides[..n]), overrides[n].symbol, overrides[n].value.value);
      hide At, Distinct;
    }
  }

  /**
   * A resolved scenario sums to one, and every symbol's weight is its override, else its base weight,
   * over the same total.
   */
  lemma ResolvedWeights(u: Universe, base: Vector, overrides: seq<Override>, s: string)
    requires Resolve(u, base, overrides).Success?
    ensures var w, total := Resolve(u, base, overrides).value.weights, Total(Applied(base, overrides));
            && Total(w) == 1.0 && total > 0.0
            && At(w, s) == match (if OverrideOf(overrides, s).Some? then OverrideOf(overrides, s) else At(base, s))
                           case None => None
                           case Some(x) => Some(x / total)
  {
    ValidateAccepts(u, overrides);
    var combined := Applied(base, overrides);
    DividedSumsToOne(combined);
    AtDivided(combined, Total(combined), s);
    AppliedAt(base, overrides, s);
    hide Validate, Divided, Total, At, OverrideOf, Applied;
  }

  /** A scenario resolves exactly when its map is well formed and leaves some weight, and says when it had to rescale. */
  lemma ResolveReports(u: Universe, base: Vector, overrides: seq<Override>)
    ensures var r, total := Resolve(u, base, overrides), Total(Applied(base, overrides));
            && (r.Success? <==> Wellformed(u, overrides) && total > 0.000000001)
            && (r.Success? && 0.999999999 <= total <= 1.000000001 ==> r.value.rescaled == None)
            && (r.Success? && !(0.999999999 <= total <= 1.000000001) ==> r.value.rescaled == Some(total))
  {
    hide Validate, Applied, Total, Divided;
    ValidateAccepts(u, overrides);
  }

  /** Two symbols the scenario leaves alone keep their relative size. */
  lemma ProportionsKept(u: Universe, base: Vector, overrides: seq<Override>, s: string, t: string)
    requires Resolve(u, base, overrides).Success?
    requires OverrideOf(overrides, s) == OverrideOf(overrides, t) == None && At(base, s).Some? && At(base, t).Some?
    ensures At(Resolve(u, base, overrides).value.weights, s).Some? && At(Resolve(u, base, overrides).value.weights, t).Some?
    ensures var w := Resolve(u, base, overrides).value.weights;
            Times(At(w, s).value, At(base, t).value) == Times(At(w, t).value, At(base, s).value)
  {
    ResolvedWeights(u, base, overrides, s);
    ResolvedWeights(u, base, overrides, t);
    CrossQuotients(At(base, s).value, At(base, t).value, Total(Applied(base, overrides)));
    hide Resolve, At, Times, OverrideOf;
  }

  lemma CrossQuotients(x: real, y: real, total: real)
    requires total > 0.0
    ensures Times(x / total, y) == Times(y / total, x)
  {
    var p, q := x / total, y / total;
    DivMul(x, total);
    DivMul(y, total);
    assert p * (q * total) == q * (p * total);
  }

  /** A base allocation as a valued portfolio supplies it, over known and priced symbols. */
  ghost predicate Usable(u: Universe, base: Vector, overrides: seq<Override>, prices: map<string, real>) {
    && Distinct(base) && NonNegative(base) && (forall i :: 0 <= i < |base| ==> u.known(base[i].symbol))
    && forall s: string :: At(base, s).Some? || OverrideOf(overrides, s).Some? ==> s in prices && prices[s] > 0.0
  }

  lemma ResolvedIsBuildable(u: Universe, base: Vector, overrides: seq<Override>, prices: map<string, real>)
    requires Usable(u, base, overrides, prices) && Resolve(u, base, overrides).Success?
    ensures var w := Resolve(u, base, overrides).value.weights;
            Distinct(w) && NonNegative(w) && Total(w) == 1.0 && Buildable(u, w, prices)
  {
    hide At, OverrideOf, Applied, Validate, Total;
    ValidateAccepts(u, overrides);
    AppliedKeeps(u, base, overrides);
    var combined := Applied(base, overrides);
    var w := Resolve(u, base, overrides).value.weights;
    DividedKeepsSign(combined, Total(combined));
    ResolvedWeights(u, base, overrides, "");
    forall i | 0 <= i < |w|
      ensures w[i].symbol in prices && prices[w[i].symbol] > 0.0
    {
      AppliedAt(base, overrides, w[i].symbol);
      AtMeans(combined, w[i].symbol);
      assert combined[i].symbol == w[i].symbol;
      hide At, OverrideOf, Applied;
    }
  }

  lemma SupportIsOne(w: Vector)
    requires NonNegative(w) && Total(w) == 1.0
    ensures Support(w) != [] && Total(Support(w)) == 1.0
  {
    SupportTotal(w);
  }

  lemma TimesCancelsExactly(x: real, k: real)
    requires k > 0.0
    ensures Times(x, k) / k == x
  {
    QuotientAtLeast(Times(x, k), k, x);
    QuotientAtMost(Times(x, k), k, x);
  }

  lemma ScaledDivided(v: Vector, k: real)
    requires k > 0.0
    ensures Divided(Scaled(v, k), k) == v
  {
    forall i | 0 <= i < |v|
      ensures Times(v[i].weight, k) / k == v[i].weight
    {
      TimesCancelsExactly(v[i].weight, k);
    }
    hide Times;
  }

  /** Rebuilding a portfolio from weights and valuing it gives the weights back on their support, and the total. */
  lemma WeightsRoundTrip(u: Universe, w: Vector, prices: map<string, real>, total: real, benchmark: string, topN: nat)
    requires Distinct(w) && NonNegative(w) && Total(w) == 1.0 && Buildable(u, w, prices)
    requires total > EPSILON && u.known(benchmark)
    ensures FromWeights(u, w, prices, total, benchmark).Success?
    ensures var p := FromWeights(u, w, prices, total, benchmark).value;
            && p.Valid()
            && Value(u, p, prices, topN).Success?
            && Value(u, p, prices, topN).value.totalValue == total
            && Value(u, p, prices, topN).value.weights == Support(w)
  {
    hide HoldingsFor, Support, Scaled, Total, ExposureOf, TotalCost, ValueOf;
    HoldingsAreWorth(u, w, prices, total);
    var hs := HoldingsFor(u, w, prices, total).value;
    var values := MarketValues(hs, prices);
    SupportIsOne(w);
    SupportDistinct(w);
    TotalScaled(Support(w), total);
    assert Times(1.0, total) == total;
    ScaledDivided(Support(w), total);
    assert |hs| == |Support(w)| > 0;
    forall i | 0 <= i < |hs|
      ensures hs[i].symbol == Support(w)[i].symbol
    {
      assert values[i].symbol == Scaled(Support(w), total)[i].symbol;
    }
    assert Divided(values, Total(values)) == Support(w);
    hide MarketValues, Divided, Times;
  }

  /**
   * The scenario round trip: resolve the overrides, rebuild a portfolio of the same total value and value it:
   * the result is the normalised vector on its support, it sums to one, and the total value is kept.
   */
  lemma ScenarioRoundTrip(u: Universe, base: Vector, overrides: seq<Override>, prices: map<string, real>,
                          total: real, benchmark: string, topN: nat)
    requires Usable(u, base, overrides, prices) && Resolve(u, base, overrides).Success?
    requires total > EPSILON && u.known(benchmark)
    ensures var w := Resolve(u, base, overrides).value.weights;
            && FromWeights(u, w, prices, total, benchmark).Success?
            && var p := FromWeights(u, w, prices, total, benchmark).value;
            && Value(u, p, prices, topN).Success?
            && var a := Value(u, p, prices, topN).value;
            && a.totalValue == total && a.weights == Support(w) && Allocates(a.weights)
  {
    hide Resolve, FromWeights, Value, Usable;
    ResolvedIsBuildable(u, base, overrides, prices);
    var w := Resolve(u, base, overrides).value.weights;
    WeightsRoundTrip(u, w, prices, total, benchmark, topN);
    WeightsAllocate(u, FromWeights(u, w, prices, total, benchmark).value, prices, topN);
  }
}
