/** Position concentration: holdings.concentration. */
module Concentration {
  import opened Prelude
  import opened RealMath
  import opened Statistics
  import opened Weights

  const EPSILON: real := 0.000000001

  /** Python's string order, by code point. */
  predicate AtMost(a: string, b: string) {
    a == "" || (b != "" && (a[0] < b[0] || (a[0] == b[0] && AtMost(a[1..], b[1..]))))
  }

  /** The sort key (-weight, symbol). */
  predicate Precedes(x: Entry, y: Entry) {
    x.weight > y.weight || (x.weight == y.weight && AtMost(x.symbol, y.symbol))
  }

  function Insert(x: Entry, s: Vector): Vector {
    if s == [] || Precedes(x, s[0]) then [x] + s else [s[0]] + Insert(x, s[1..])
  }

  /** sorted(weights.items(), key=(-weight, symbol)). */
  function Sort(v: Vector): Vector {
    if v == [] then [] else Insert(v[|v| - 1], Sort(v[..|v| - 1]))
  }

  function Hhi(v: Vector): real {
    Dot(Amounts(v), Amounts(v))
  }

  function Symbols(v: Vector): (r: seq<string>)
    ensures |r| == |v|
  {
    seq(|v|, i requires 0 <= i < |v| => v[i].symbol)
  }

  datatype Summary = Summary(
    largestSymbol: string, largestWeight: real, topN: nat, topNWeight: real, topNSymbols: seq<string>,
    hhi: real, effectiveHoldings: Option<real>)

  /** 1 / HHI; NaN when HHI is as good as zero. */
  function Effective(hhi: real): Option<real> {
    if hhi > EPSILON then Some(1.0 / hhi) else None
  }

  function Summarise(v: Vector, topN: nat): Result<Summary> {
    if v == [] then Failure(InvalidRequest)
    else
      SortKeepsEntries(v);
      var ordered := Sort(v);
      var n := if topN < |ordered| then topN else |ordered|;
      var top := ordered[..n];
      Success(Summary(ordered[0].symbol, ordered[0].weight, n, Total(top), Symbols(top), Hhi(v), Effective(Hhi(v))))
  }

  // ---- the order

  lemma {:induction false} InsertKeepsEntries(x: Entry, s: Vector)
    ensures multiset(Insert(x, s)) == multiset(s) + multiset{x}
    ensures |Insert(x, s)| == |s| + 1
  {
    if s != [] && !Precedes(x, s[0]) {
      InsertKeepsEntries(x, s[1..]);
      assert s == [s[0]] + s[1..];
    }
    hide Precedes;
  }

  lemma {:induction false} SortKeepsEntries(v: Vector)
    ensures multiset(Sort(v)) == multiset(v) && |Sort(v)| == |v|
  {
    if v != [] {
      var n := |v| - 1;
      SortKeepsEntries(v[..n]);
      InsertKeepsEntries(v[n], Sort(v[..n]));
      assert v == v[..n] + [v[n]];
    }
  }

  lemma {:induction false} AtMostIsTotal(a: string, b: string)
    ensures AtMost(a, b) || AtMost(b, a)
  {
    if a != "" && b != "" {
      AtMostIsTotal(a[1..], b[1..]);
    }
  }

  lemma {:induction false} AtMostIsTransitive(a: string, b: string, c: string)
    requires AtMost(a, b) && AtMost(b, c)
    ensures AtMost(a, c)
  {
    if a != "" && a[0] == b[0] && b[0] == c[0] {
      AtMostIsTransitive(a[1..], b[1..], c[1..]);
    }
  }

  lemma PrecedesIsTotal(x: Entry, y: Entry)
    ensures Precedes(x, y) || Precedes(y, x)
  {
    AtMostIsTotal(x.symbol, y.symbol);
  }

  lemma PrecedesIsTransitive(x: Entry, y: Entry, z: Entry)
    requires Precedes(x, y) && Precedes(y, z)
    ensures Precedes(x, z)
  {
    if x.weight == y.weight && y.weight == z.weight {
      AtMostIsTransitive(x.symbol, y.symbol, z.symbol);
    }
  }

  ghost predicate Ordered(s: Vector) {
    forall i, j :: 0 <= i < j < |s| ==> Precedes(s[i], s[j])
  }

  lemma {:induction false} InsertKeepsOrder(x: Entry, s: Vector)
    requires Ordered(s)
    ensures Ordered(Insert(x, s))
  {
    hide Precedes;
    if s != [] && !Precedes(x, s[0]) {
      PrecedesIsTotal(x, s[0]);
      var rest := s[1..];
      InsertKeepsOrder(x, rest);
      InsertKeepsEntries(x, rest);
      var r := Insert(x, rest);
      forall j | 0 <= j < |r|
        ensures Precedes(s[0], r[j])
      {
        assert r[j] in multiset(rest) + multiset{x};
        if r[j] != x {
          assert r[j] in rest;
          var i :| 0 <= i < |rest| && rest[i] == r[j];
          assert s[i + 1] == r[j];
        }
      }
    } else {
      forall j | 0 <= j < |s|
        ensures Precedes(x, s[j])
      {
        if j > 0 {
          PrecedesIsTransitive(x, s[0], s[j]);
        }
      }
    }
  }

  /** Heaviest first, ties by symbol, nothing lost or added. */
  lemma {:induction false} SortIsOrdered(v: Vector)
    ensures Ordered(Sort(v))
  {
    if v != [] {
      SortIsOrdered(v[..|v| - 1]);
      InsertKeepsOrder(v[|v| - 1], Sort(v[..|v| - 1]));
    }
  }

  // ---- the top-N weight

  /** How far the amounts above a threshold exceed it, in all. */
  function Excess(v: Vector, threshold: real): real {
    if v == [] then 0.0 else Excess(v[..|v| - 1], threshold) + Max(v[|v| - 1].weight - threshold, 0.0)
  }

  lemma {:induction false} ExcessConcat(a: Vector, b: Vector, threshold: real)
    ensures Excess(a + b, threshold) == Excess(a, threshold) + Excess(b, threshold)
  {
    if b == [] {
      assert a + b == a;
    } else {
      var n := |b| - 1;
      ExcessConcat(a, b[..n], threshold);
      assert (a + b)[..|a + b| - 1] == a + b[..n];
    }
  }

  lemma {:induction false} ExcessNonNegative(v: Vector, threshold: real)
    ensures Excess(v, threshold) >= 0.0
  {
    if v != [] {
      ExcessNonNegative(v[..|v| - 1], threshold);
    }
  }

  function Without(v: Vector, k: nat): Vector
    requires k < |v|
  {
    v[..k] + v[k + 1..]
  }

  lemma EntriesWithout(v: Vector, k: nat)
    requires k < |v|
    ensures multiset(v) == multiset(Without(v, k)) + multiset{v[k]}
  {
    assert v == v[..k] + ([v[k]] + v[k + 1..]);
  }

  lemma ExcessWithout(v: Vector, k: nat, threshold: real)
    requires k < |v|
    ensures Excess(v, threshold) == Excess(Without(v, k), threshold) + Max(v[k].weight - threshold, 0.0)
  {
    var x := v[k];
    assert v == v[..k] + ([x] + v[k + 1..]);
    ExcessConcat(v[..k], [x] + v[k + 1..], threshold);
    ExcessConcat([x], v[k + 1..], threshold);
    ExcessConcat(v[..k], v[k + 1..], threshold);
    assert [x][..0] == [];
    assert Excess([x], threshold) == 0.0 + Max(x.weight - threshold, 0.0);
  }

  lemma CancelOne(a: multiset<Entry>, b: multiset<Entry>, x: Entry)
    requires a + multiset{x} <= b + multiset{x}
    ensures a <= b
  {
    forall e
      ensures a[e] <= b[e]
    {
      assert (a + multiset{x})[e] <= (b + multiset{x})[e];
    }
  }

  /** Entries picked out of v exceed the threshold by no more than v does. */
  lemma {:induction false} ExcessOfPart(t: Vector, v: Vector, threshold: real)
    requires multiset(t) <= multiset(v)
    ensures Excess(t, threshold) <= Excess(v, threshold)
  {
    if t == [] {
      ExcessNonNegative(v, threshold);
    } else {
      var n := |t| - 1;
      assert t == t[..n] + [t[n]];
      assert t[n] in multiset(v);
      var k :| 0 <= k < |v| && v[k] == t[n];
      EntriesWithout(v, k);
      CancelOne(multiset(t[..n]), multiset(Without(v, k)), t[n]);
      ExcessOfPart(t[..n], Without(v, k), threshold);
      ExcessWithout(v, k, threshold);
      hide Max, Without;
    }
  }

  /** A total is at most the count times the threshold, plus the excess; exactly that when nothing is below it. */
  lemma {:induction false} TotalByThreshold(t: Vector, threshold: real)
    ensures Total(t) <= Times(|t| as real, threshold) + Excess(t, threshold)
    ensures (forall i :: 0 <= i < |t| ==> t[i].weight >= threshold) ==>
              Total(t) == Times(|t| as real, threshold) + Excess(t, threshold)
  {
    if t != [] {
      var n := |t| - 1;
      TotalByThreshold(t[..n], threshold);
      assert forall i :: 0 <= i < n ==> t[..n][i] == t[i];
      assert Times(|t| as real, threshold) == Times(n as real, threshold) + threshold;
      hide Times;
    }
  }

  lemma {:induction false} NothingAbove(v: Vector, threshold: real)
    requires forall i :: 0 <= i < |v| ==> v[i].weight <= threshold
    ensures Excess(v, threshold) == 0.0
  {
    if v != [] {
      var n := |v| - 1;
      assert forall i :: 0 <= i < n ==> v[..n][i] == v[i];
      NothingAbove(v[..n], threshold);
    }
  }

  lemma SameEntriesSameExcess(a: Vector, b: Vector, threshold: real)
    requires multiset(a) == multiset(b)
    ensures Excess(a, threshold) == Excess(b, threshold)
  {
    ExcessOfPart(a, b, threshold);
    ExcessOfPart(b, a, threshold);
  }

  lemma TopAndRest(top: Vector, rest: Vector, threshold: real)
    requires forall i :: 0 <= i < |top| ==> top[i].weight >= threshold
    requires forall i :: 0 <= i < |rest| ==> rest[i].weight <= threshold
    ensures Total(top) == Times(|top| as real, threshold) + Excess(top + rest, threshold)
  {
    hide Times, Excess, Total;
    TotalByThreshold(top, threshold);
    NothingAbove(rest, threshold);
    ExcessConcat(top, rest, threshold);
  }

  lemma TopByThreshold(s: Vector, n: nat)
    requires Ordered(s) && 0 < n <= |s|
    ensures Total(s[..n]) == Times(n as real, s[n - 1].weight) + Excess(s, s[n - 1].weight)
  {
    hide Times, Excess, Total;
    var threshold := s[n - 1].weight;
    var top, rest := s[..n], s[n..];
    forall i | 0 <= i < |top|
      ensures top[i].weight >= threshold
    {
      assert i < n - 1 ==> Precedes(s[i], s[n - 1]);
    }
    forall i | 0 <= i < |rest|
      ensures rest[i].weight <= threshold
    {
      assert Precedes(s[n - 1], s[n + i]);
    }
    assert s == top + rest;
    TopAndRest(top, rest, threshold);
  }

  /** The top-N weight is the largest total of any N of the holdings, and the top N are N of the holdings. */
  lemma TopIsHeaviest(v: Vector, n: nat, t: Vector)
    requires n <= |v| && |t| == n && multiset(t) <= multiset(v)
    ensures |Sort(v)| == |v| && multiset(Sort(v)[..n]) <= multiset(v)
    ensures Total(t) <= Total(Sort(v)[..n])
  {
    SortKeepsEntries(v);
    SortIsOrdered(v);
    var s := Sort(v);
    PrefixOfEntries(s, n);
    if n > 0 {
      var threshold := s[n - 1].weight;
      TopByThreshold(s, n);
      TotalByThreshold(t, threshold);
      SameEntriesSameExcess(s, v, threshold);
      ExcessOfPart(t, v, threshold);
    }
    hide Times, Excess, Sort;
  }

  lemma PrefixOfEntries(s: Vector, n: nat)
    requires n <= |s|
    ensures multiset(s[..n]) <= multiset(s)
  {
    assert s == s[..n] + s[n..];
  }

  // ---- the Herfindahl-Hirschman index

  ghost predicate Allocates(v: Vector) {
    v != [] && NonNegative(v) && Total(v) == 1.0
  }

  lemma SquareBetween(w: real, top: real)
    requires 0.0 <= w <= top
    ensures 0.0 <= Times(w, w) <= Times(w, top)
  {
    MulMono(w, top, w);
    MulNonNegative(w, w);
  }

  lemma TimesAdds(x: real, y: real, k: real)
    ensures Times(x, k) + Times(y, k) == Times(x + y, k)
  {
  }

  /** HHI is at most the largest weight times the total, and at least the square of any weight. */
  lemma {:induction false} HhiByLargest(v: Vector, top: real)
    requires NonNegative(v) && forall i :: 0 <= i < |v| ==> v[i].weight <= top
    ensures 0.0 <= Hhi(v) <= Times(Total(v), top)
    ensures forall i :: 0 <= i < |v| ==> Times(v[i].weight, v[i].weight) <= Hhi(v)
  {
    if v != [] {
      var n := |v| - 1;
      HhiByLargest(v[..n], top);
      assert Amounts(v)[..n] == Amounts(v[..n]);
      assert forall i :: 0 <= i < n ==> v[..n][i] == v[i];
      SquareBetween(v[n].weight, top);
      TimesAdds(Total(v[..n]), v[n].weight, top);
      hide Times, Amounts;
    }
  }

  /**
   * For an allocation of n weights, the square of the largest weight <= HHI <= the largest weight,
   * and 1 / n <= HHI <= 1.
   */
  lemma HhiBounds(v: Vector)
    requires Allocates(v)
    ensures var top := Sort(v)[0].weight; |Sort(v)| == |v| && Times(top, top) <= Hhi(v) <= top <= 1.0
    ensures 1.0 <= Times(|v| as real, Hhi(v))
  {
    SortKeepsEntries(v);
    SortIsOrdered(v);
    hide Sort;
    var s := Sort(v);
    forall i | 0 <= i < |v|
      ensures v[i].weight <= s[0].weight
    {
      assert v[i] in multiset(s);
      var j :| 0 <= j < |s| && s[j] == v[i];
      assert j > 0 ==> Precedes(s[0], s[j]);
    }
    assert s[0] in multiset(v);
    var k :| 0 <= k < |v| && v[k] == s[0];
    HhiByLargest(v, s[0].weight);
    TotalNonNegative(v);
    TotalIsSum(v);
    SumSquared(Amounts(v));
    assert Times(1.0, s[0].weight) == s[0].weight && Times(1.0, 1.0) == 1.0;
    hide Times, Hhi, Sum;
  }

  lemma ReciprocalBounds(hhi: real, n: real)
    requires 0.0 < hhi <= 1.0 && n > 0.0 && 1.0 <= Times(n, hhi)
    ensures 1.0 <= 1.0 / hhi <= n
  {
    QuotientAtLeast(1.0, hhi, 1.0);
    QuotientAtMost(1.0, hhi, n);
  }

  lemma ManyHoldings(n: real, hhi: real)
    requires 0.0 < n < 1000000000.0 && 1.0 <= Times(n, hhi)
    ensures hhi > EPSILON
  {
    if hhi <= EPSILON {
      MulMono(hhi, EPSILON, n);
    }
  }

  /** With fewer than a billion holdings the effective number of holdings exists and lies between one and n. */
  lemma EffectiveBounds(v: Vector, topN: nat)
    requires Allocates(v) && |v| < 1000000000
    ensures Summarise(v, topN).Success?
    ensures var c := Summarise(v, topN).value;
            c.effectiveHoldings.Some? && 1.0 <= c.effectiveHoldings.value <= |v| as real
  {
    HhiBounds(v);
    ManyHoldings(|v| as real, Hhi(v));
    ReciprocalBounds(Hhi(v), |v| as real);
    hide Sort, Hhi, Times, Total;
  }

  /** HHI is 1 exactly when everything sits in one name. */
  lemma HhiIsOne(v: Vector)
    requires Allocates(v)
    ensures Hhi(v) == 1.0 <==> exists i :: 0 <= i < |v| && v[i].weight == 1.0
  {
    HhiBounds(v);
    SortKeepsEntries(v);
    TotalNonNegative(v);
    HhiByLargest(v, 1.0);
    hide Hhi, Sort, Times;
    var s := Sort(v);
    assert s[0] in multiset(v);
    var k :| 0 <= k < |v| && v[k] == s[0];
    if i :| 0 <= i < |v| && v[i].weight == 1.0 {
      UnitSquare();
      assert Times(v[i].weight, v[i].weight) <= Hhi(v);
    }
  }

  lemma UnitSquare()
    ensures Times(1.0, 1.0) == 1.0
  {
  }

  lemma SpreadAroundEqual(p: real, n: real, k: real)
    requires n > 0.0 && k * n == 1.0
    ensures Times(Parabola(p, 1.0, n, k), n) == Times(n, p) - 1.0
  {
    assert k * (k * n) == k;
    assert (k * k) * n == k;
  }

  /** HHI is 1 / n exactly when the n positions are equally weighted. */
  lemma HhiIsLeast(v: Vector)
    requires Allocates(v)
    ensures Times(|v| as real, Hhi(v)) == 1.0 <==> forall i :: 0 <= i < |v| ==> v[i].weight == 1.0 / |v| as real
  {
    var a, n := Amounts(v), |v| as real;
    var k := 1.0 / n;
    DivMul(1.0, n);
    TotalIsSum(v);
    DotOnes(a);
    NormOfMinus(a, k, Ones(|v|));
    SpreadAroundEqual(Hhi(v), n, k);
    var d := Minus(a, k, Ones(|v|));
    NormNonNegative(d);
    assert forall i :: 0 <= i < |v| ==> d[i] == v[i].weight - k;
    var norm := Dot(d, d);
    assert Times(norm, n) == Times(n, Hhi(v)) - 1.0;
    hide Dot, Minus, Parabola, Hhi, Sum;
    if forall i :: 0 <= i < |v| ==> v[i].weight == k {
      DotWithZero(d, d);
      TimesZero(norm, n);
    } else {
      var i :| 0 <= i < |v| && v[i].weight != k;
      NormPositive(d, i);
      TimesPositive(norm, n);
    }
  }

  lemma TimesZero(x: real, n: real)
    ensures x == 0.0 ==> Times(x, n) == 0.0
  {
  }

  // ---- the summary

  /** The entries of `top` are the heaviest of v, in order, and weigh no less than any other selection of as many. */
  ghost predicate Heaviest(top: Vector, v: Vector) {
    && |top| <= |v| && multiset(top) <= multiset(v) && Ordered(top)
    && forall t: Vector :: |t| == |top| && multiset(t) <= multiset(v) ==> Total(t) <= Total(top)
  }

  /** What a summary says of v: its largest position, the top N, the index and the number it amounts to. */
  ghost predicate Summarises(c: Summary, v: Vector, topN: nat) {
    && Entry(c.largestSymbol, c.largestWeight) in v
    && (forall i :: 0 <= i < |v| ==> Precedes(Entry(c.largestSymbol, c.largestWeight), v[i]))
    && c.topN == (if topN < |v| then topN else |v|)
    && (exists top: Vector :: Heaviest(top, v) && |top| == c.topN && c.topNWeight == Total(top) && c.topNSymbols == Symbols(top))
    && c.hhi == Dot(Amounts(v), Amounts(v))
    && (if c.hhi > 0.000000001 then c.effectiveHoldings.Some? && Times(c.effectiveHoldings.value, c.hhi) == 1.0
        else c.effectiveHoldings == None)
  }

  lemma PrecedesItself(x: Entry)
    ensures Precedes(x, x)
  {
    PrecedesIsTotal(x, x);
  }

  lemma FirstPrecedes(v: Vector, i: nat)
    requires i < |v|
    ensures |Sort(v)| == |v| && Sort(v)[0] in v && Precedes(Sort(v)[0], v[i])
  {
    hide Sort, Precedes;
    SortKeepsEntries(v);
    SortIsOrdered(v);
    var s := Sort(v);
    assert s[0] in multiset(v);
    assert v[i] in multiset(s);
    var j :| 0 <= j < |s| && s[j] == v[i];
    if j == 0 {
      PrecedesItself(s[0]);
    }
  }

  lemma TopOfSort(v: Vector, n: nat)
    requires n <= |v|
    ensures |Sort(v)| == |v| && Heaviest(Sort(v)[..n], v)
  {
    hide Sort, Precedes;
    SortKeepsEntries(v);
    SortIsOrdered(v);
    var top := Sort(v)[..n];
    TopIsHeaviest(v, n, top) by { PrefixOfEntries(Sort(v), n); }
    forall t: Vector | |t| == |top| && multiset(t) <= multiset(v)
      ensures Total(t) <= Total(top)
    {
      TopIsHeaviest(v, n, t);
    }
  }

  lemma EffectiveMeans(hhi: real)
    ensures if hhi > 0.000000001 then Effective(hhi).Some? && Times(Effective(hhi).value, hhi) == 1.0 else Effective(hhi) == None
  {
    if hhi > 0.000000001 {
      DivMul(1.0, hhi);
    }
  }

  /** The summary of a vector that is not empty. */
  lemma SummaryMeans(v: Vector, topN: nat)
    requires v != []
    ensures Summarise(v, topN).Success? && Summarises(Summarise(v, topN).value, v, topN)
  {
    hide Sort, Precedes, Heaviest, Effective;
    SortKeepsEntries(v);
    forall i: nat | i < |v|
      ensures Sort(v)[0] in v && Precedes(Sort(v)[0], v[i])
    {
      FirstPrecedes(v, i);
    }
    TopOfSort(v, if topN < |v| then topN else |v|);
    EffectiveMeans(Hhi(v));
  }
}
