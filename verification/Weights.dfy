/** Weight vectors: dictionaries from symbol to amount, in insertion order. */
module Weights {
  import opened Prelude
  import opened RealMath
  import opened Statistics

  datatype Entry = Entry(symbol: string, weight: real)

  type Vector = seq<Entry>

  predicate Distinct(v: Vector) {
    forall i, j :: 0 <= i < j < |v| ==> v[i].symbol != v[j].symbol
  }

  ghost predicate NonNegative(v: Vector) {
    forall i :: 0 <= i < |v| ==> v[i].weight >= 0.0
  }

  function Amounts(v: Vector): (r: seq<real>)
    ensures |r| == |v|
  {
    seq(|v|, i requires 0 <= i < |v| => v[i].weight)
  }

  /** sum(v.values()). */
  function Total(v: Vector): real {
    if v == [] then 0.0 else Total(v[..|v| - 1]) + v[|v| - 1].weight
  }

  /** v.get(s). */
  function At(v: Vector, s: string): Option<real> {
    if v == [] then None
    else
      var n := |v| - 1;
      if v[n].symbol == s then Some(v[n].weight) else At(v[..n], s)
  }

  function Replace(v: Vector, s: string, w: real): (r: Vector)
    ensures |r| == |v|
  {
    seq(|v|, i requires 0 <= i < |v| => if v[i].symbol == s then Entry(s, w) else v[i])
  }

  /** v[s] = w: in place if the key is there, else at the end. */
  function Put(v: Vector, s: string, w: real): Vector {
    if At(v, s).Some? then Replace(v, s, w) else v + [Entry(s, w)]
  }

  function OrZero(x: Option<real>): real {
    match x
    case None => 0.0
    case Some(w) => w
  }

  lemma {:induction false} AtMeans(v: Vector, s: string)
    ensures At(v, s).Some? <==> exists i :: 0 <= i < |v| && v[i].symbol == s
    ensures Distinct(v) ==> forall i :: 0 <= i < |v| && v[i].symbol == s ==> At(v, s) == Some(v[i].weight)
  {
    if v != [] {
      var n := |v| - 1;
      AtMeans(v[..n], s);
      assert forall i :: 0 <= i < n ==> v[..n][i] == v[i];
      if At(v[..n], s).Some? {
        var i :| 0 <= i < n && v[..n][i].symbol == s;
        assert v[i].symbol == s;
      }
    }
  }

  lemma {:induction false} AtReplaced(v: Vector, s: string, w: real, t: string)
    ensures At(Replace(v, s, w), t) == if t == s && At(v, s).Some? then Some(w) else At(v, t)
  {
    if v != [] {
      var n := |v| - 1;
      AtReplaced(v[..n], s, w, t);
      assert Replace(v, s, w)[..n] == Replace(v[..n], s, w);
    }
  }

  lemma AtPut(v: Vector, s: string, w: real, t: string)
    ensures At(Put(v, s, w), t) == if t == s then Some(w) else At(v, t)
  {
    AtReplaced(v, s, w, t);
    var u := v + [Entry(s, w)];
    assert u[..|u| - 1] == v;
    hide Replace;
  }

  lemma PutKeepsDistinct(v: Vector, s: string, w: real)
    requires Distinct(v)
    ensures Distinct(Put(v, s, w))
  {
    AtMeans(v, s);
    hide At;
  }

  lemma {:induction false} TotalReplaced(v: Vector, s: string, w: real)
    requires Distinct(v)
    ensures Total(Replace(v, s, w)) == Total(v) + if At(v, s).Some? then w - At(v, s).value else 0.0
  {
    if v != [] {
      var n := |v| - 1;
      TotalReplaced(v[..n], s, w);
      assert Replace(v, s, w)[..n] == Replace(v[..n], s, w);
      if v[n].symbol == s {
        AtMeans(v[..n], s);
        assert At(v[..n], s) == None;
      }
    }
  }

  lemma TotalPut(v: Vector, s: string, w: real)
    requires Distinct(v)
    ensures Total(Put(v, s, w)) == Total(v) + w - OrZero(At(v, s))
  {
    TotalReplaced(v, s, w);
    var u := v + [Entry(s, w)];
    assert u[..|u| - 1] == v;
    hide Replace, At;
  }

  lemma {:induction false} TotalIsSum(v: Vector)
    ensures Total(v) == Sum(Amounts(v))
  {
    if v != [] {
      var n := |v| - 1;
      TotalIsSum(v[..n]);
      assert Amounts(v)[..n] == Amounts(v[..n]);
    }
  }

  lemma {:induction false} TotalConcat(a: Vector, b: Vector)
    ensures Total(a + b) == Total(a) + Total(b)
  {
    if b == [] {
      assert a + b == a;
    } else {
      var n := |b| - 1;
      TotalConcat(a, b[..n]);
      assert (a + b)[..|a + b| - 1] == a + b[..n];
    }
  }

  lemma {:induction false} TotalNonNegative(v: Vector)
    requires NonNegative(v)
    ensures Total(v) >= 0.0
    ensures forall i :: 0 <= i < |v| ==> v[i].weight <= Total(v)
  {
    if v != [] {
      var n := |v| - 1;
      TotalNonNegative(v[..n]);
      assert forall i :: 0 <= i < n ==> v[..n][i] == v[i];
    }
  }

  /** Every amount times k. */
  function Scaled(v: Vector, k: real): (r: Vector)
    ensures |r| == |v|
  {
    seq(|v|, i requires 0 <= i < |v| => Entry(v[i].symbol, Times(v[i].weight, k)))
  }

  lemma {:induction false} TotalScaled(v: Vector, k: real)
    ensures Total(Scaled(v, k)) == Times(Total(v), k)
  {
    if v != [] {
      var n := |v| - 1;
      TotalScaled(v[..n], k);
      assert Scaled(v, k)[..n] == Scaled(v[..n], k);
    }
  }

  /** { s: w / total }. */
  function Divided(v: Vector, total: real): (r: Vector)
    requires total != 0.0
    ensures |r| == |v|
  {
    seq(|v|, i requires 0 <= i < |v| => Entry(v[i].symbol, v[i].weight / total))
  }

  lemma DividedTimes(v: Vector, total: real)
    requires total != 0.0
    ensures Scaled(Divided(v, total), total) == v
  {
    forall i | 0 <= i < |v|
      ensures Times(v[i].weight / total, total) == v[i].weight
    {
      DivMul(v[i].weight, total);
    }
    hide Times;
  }

  lemma TimesOne(x: real, total: real)
    requires total != 0.0 && Times(x, total) == total
    ensures x == 1.0
  {
    assert (x - 1.0) * total == 0.0;
  }

  /** Dividing by the total makes the amounts sum to one. */
  lemma DividedSumsToOne(v: Vector)
    requires Total(v) != 0.0
    ensures Total(Divided(v, Total(v))) == 1.0
  {
    var d := Divided(v, Total(v));
    DividedTimes(v, Total(v));
    TotalScaled(d, Total(v));
    TimesOne(Total(d), Total(v));
  }

  lemma {:induction false} AtDivided(v: Vector, total: real, s: string)
    requires total != 0.0
    ensures At(Divided(v, total), s) ==
            match At(v, s) case None => None case Some(w) => Some(w / total)
  {
    if v != [] {
      var n := |v| - 1;
      AtDivided(v[..n], total, s);
      assert Divided(v, total)[..n] == Divided(v[..n], total);
    }
  }

  /** The entries with something in them. */
  function Support(v: Vector): Vector {
    if v == [] then []
    else
      var n := |v| - 1;
      Support(v[..n]) + if v[n].weight > 0.0 then [v[n]] else []
  }

  lemma {:induction false} SupportTotal(v: Vector)
    requires NonNegative(v)
    ensures Total(Support(v)) == Total(v)
  {
    if v != [] {
      var n := |v| - 1;
      SupportTotal(v[..n]);
      TotalConcat(Support(v[..n]), if v[n].weight > 0.0 then [v[n]] else []);
      assert [v[n]][..0] == [];
    }
  }

  lemma {:induction false} SupportMembers(v: Vector)
    ensures forall e :: e in Support(v) <==> e in v && e.weight > 0.0
  {
    if v != [] {
      var n := |v| - 1;
      SupportMembers(v[..n]);
      assert v == v[..n] + [v[n]];
    }
  }

  lemma {:induction false} SupportDistinct(v: Vector)
    requires Distinct(v)
    ensures Distinct(Support(v))
  {
    if v != [] {
      var n := |v| - 1;
      SupportDistinct(v[..n]);
      SupportMembers(v[..n]);
      var s := Support(v[..n]);
      forall i | 0 <= i < |s|
        ensures s[i].symbol != v[n].symbol
      {
        assert s[i] in v[..n];
      }
    }
  }
}
