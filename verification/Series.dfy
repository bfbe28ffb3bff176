/** The pandas vocabulary the indicators and strategies use: columns with missing values, on values. */
module Series {
  import opened Prelude
  import opened RealMath

  /** A float column; None stands for NaN. */
  type Column = seq<Option<real>>

  function Blank<T>(n: nat): (r: seq<Option<T>>)
    ensures |r| == n
  {
    seq(n, _ => None)
  }

  function Known<T>(values: seq<T>): (r: seq<Option<T>>)
    ensures |r| == |values|
  {
    seq(|values|, i requires 0 <= i < |values| => Some(values[i]))
  }

  /** shift(1). */
  function Shift<T>(c: seq<Option<T>>): (r: seq<Option<T>>)
    ensures |r| == |c|
  {
    seq(|c|, i requires 0 <= i < |c| => if i == 0 then None else c[i - 1])
  }

  function MinusCell(a: Option<real>, b: Option<real>): Option<real> {
    if a.Some? && b.Some? then Some(a.value - b.value) else None
  }

  function Difference(a: Column, b: Column): (r: Column)
    requires |a| == |b|
    ensures |r| == |a|
  {
    seq(|a|, i requires 0 <= i < |a| => MinusCell(a[i], b[i]))
  }

  /** The last `window` values up to and including row t, if all of them are known (min_periods = window). */
  function Window(c: Column, window: nat, t: nat): (r: Option<seq<real>>)
    requires window > 0 && t < |c|
    ensures r.Some? ==> |r.value| == window && t + 1 >= window &&
                        forall i :: 0 <= i < window ==> c[t + 1 - window + i] == Some(r.value[i])
  {
    if t + 1 < window || exists i :: t + 1 - window <= i <= t && c[i] == None then None
    else Some(seq(window, i requires 0 <= i < window => c[t + 1 - window + i].value))
  }

  /** max() and min(); missing on nothing. */
  function MaxOf(v: seq<real>): Option<real> {
    if v == [] then None
    else
      match MaxOf(v[..|v| - 1])
      case None => Some(v[|v| - 1])
      case Some(m) => Some(Max(m, v[|v| - 1]))
  }

  function MinOf(v: seq<real>): Option<real> {
    if v == [] then None
    else
      match MinOf(v[..|v| - 1])
      case None => Some(v[|v| - 1])
      case Some(m) => Some(Min(m, v[|v| - 1]))
  }

  lemma {:induction false} MaxOfIsGreatest(v: seq<real>)
    requires v != []
    ensures MaxOf(v).Some? && MaxOf(v).value in v && forall i :: 0 <= i < |v| ==> v[i] <= MaxOf(v).value
  {
    var n := |v| - 1;
    if n > 0 {
      MaxOfIsGreatest(v[..n]);
      assert forall i :: 0 <= i < n ==> v[i] == v[..n][i];
    }
  }

  lemma {:induction false} MinOfIsLeast(v: seq<real>)
    requires v != []
    ensures MinOf(v).Some? && MinOf(v).value in v && forall i :: 0 <= i < |v| ==> MinOf(v).value <= v[i]
  {
    var n := |v| - 1;
    if n > 0 {
      MinOfIsLeast(v[..n]);
      assert forall i :: 0 <= i < n ==> v[i] == v[..n][i];
    }
  }

  /** rolling(window, min_periods=window) followed by an aggregate. */
  function Rolling(f: seq<real> -> Option<real>, c: Column, window: nat): (r: Column)
    requires window > 0
    ensures |r| == |c|
  {
    seq(|c|, t requires 0 <= t < |c| =>
      match Window(c, window, t) case None => None case Some(v) => f(v))
  }

  /** A rolling aggregate of two columns; missing wherever either window is. */
  function RollingPair(f: (seq<real>, seq<real>) -> Option<real>, a: Column, b: Column, window: nat): (r: Column)
    requires window > 0 && |a| == |b|
    ensures |r| == |a|
  {
    seq(|a|, t requires 0 <= t < |a| =>
      match (Window(a, window, t), Window(b, window, t))
      case (Some(v), Some(w)) => f(v, w)
      case _ => None)
  }

  /** target[mask] = value. */
  function Assign<T>(c: seq<Option<T>>, mask: seq<bool>, value: T): (r: seq<Option<T>>)
    requires |mask| == |c|
    ensures |r| == |c|
  {
    seq(|c|, i requires 0 <= i < |c| => if mask[i] then Some(value) else c[i])
  }

  /** The last known value at or before row t. */
  function LastKnown<T>(c: seq<Option<T>>, t: nat): Option<T>
    requires t < |c|
  {
    if c[t].Some? then c[t] else if t == 0 then None else LastKnown(c, t - 1)
  }

  /** ffill().fillna(default). */
  function ForwardFill<T>(c: seq<Option<T>>, default: T): (r: seq<T>)
    ensures |r| == |c|
  {
    seq(|c|, t requires 0 <= t < |c| => match LastKnown(c, t) case None => default case Some(v) => v)
  }

  /** dropna: the row numbers and values of the known entries. */
  function DropNa(c: Column): (r: (seq<nat>, seq<real>))
    ensures |r.0| == |r.1| <= |c|
    ensures forall i :: 0 <= i < |r.0| ==> r.0[i] < |c|
  {
    if c == [] then ([], [])
    else
      var n := |c| - 1;
      var (labels, values) := DropNa(c[..n]);
      if c[n] == None then (labels, values) else (labels + [n], values + [c[n].value])
  }

  /** The value stored under row number t, searched from the end. */
  function Lookup(labels: seq<nat>, c: Column, t: nat): Option<real>
    requires |labels| == |c|
  {
    if labels == [] then None
    else
      var n := |labels| - 1;
      if labels[n] == t then c[n] else Lookup(labels[..n], c[..n], t)
  }

  /** reindex over rows 0 .. n - 1. */
  function Reindex(labels: seq<nat>, c: Column, n: nat): (r: Column)
    requires |labels| == |c|
    ensures |r| == n
  {
    seq(n, t requires 0 <= t < n => Lookup(labels, c, t))
  }

  // ---- truncation commutes with every operation: none of them looks ahead

  lemma KnownPrefix<T>(values: seq<T>, k: nat)
    requires k <= |values|
    ensures Known(values)[..k] == Known(values[..k])
  {
  }

  lemma ShiftPrefix<T>(c: seq<Option<T>>, k: nat)
    requires k <= |c|
    ensures Shift(c)[..k] == Shift(c[..k])
  {
  }

  lemma DifferencePrefix(a: Column, b: Column, k: nat)
    requires k <= |a| == |b|
    ensures Difference(a, b)[..k] == Difference(a[..k], b[..k])
  {
  }

  lemma WindowPrefix(c: Column, window: nat, k: nat, t: nat)
    requires window > 0 && t < k <= |c|
    ensures Window(c[..k], window, t) == Window(c, window, t)
  {
    assert forall i :: 0 <= i <= t ==> c[..k][i] == c[i];
    if t + 1 >= window {
      if i :| t + 1 - window <= i <= t && c[i] == None {
        assert c[..k][i] == None;
      } else {
        assert Window(c[..k], window, t).Some? && Window(c, window, t).Some?;
        assert Window(c[..k], window, t).value == Window(c, window, t).value;
      }
    }
  }

  /** On a fully known column a window is the slice that ends at row t. */
  lemma KnownWindow(values: seq<real>, window: nat, t: nat)
    requires window > 0 && t < |values|
    ensures Window(Known(values), window, t) ==
            if window <= t + 1 then Some(values[t + 1 - window..t + 1]) else None
  {
    if window <= t + 1 {
      var c := Known(values);
      assert forall i :: 0 <= i <= t ==> c[i] == Some(values[i]);
      assert Window(c, window, t).Some?;
      assert Window(c, window, t).value == values[t + 1 - window..t + 1];
    }
  }

  lemma RollingPrefix(f: seq<real> -> Option<real>, c: Column, window: nat, k: nat)
    requires window > 0 && k <= |c|
    ensures Rolling(f, c, window)[..k] == Rolling(f, c[..k], window)
  {
    forall t | 0 <= t < k
      ensures Rolling(f, c, window)[t] == Rolling(f, c[..k], window)[t]
    {
      WindowPrefix(c, window, k, t);
    }
  }

  lemma RollingPairPrefix(f: (seq<real>, seq<real>) -> Option<real>, a: Column, b: Column, window: nat, k: nat)
    requires window > 0 && k <= |a| == |b|
    ensures RollingPair(f, a, b, window)[..k] == RollingPair(f, a[..k], b[..k], window)
  {
    forall t | 0 <= t < k
      ensures RollingPair(f, a, b, window)[t] == RollingPair(f, a[..k], b[..k], window)[t]
    {
      WindowPrefix(a, window, k, t);
      WindowPrefix(b, window, k, t);
    }
  }

  lemma AssignPrefix<T>(c: seq<Option<T>>, mask: seq<bool>, value: T, k: nat)
    requires k <= |c| == |mask|
    ensures Assign(c, mask, value)[..k] == Assign(c[..k], mask[..k], value)
  {
  }

  lemma {:induction false} LastKnownPrefix<T>(c: seq<Option<T>>, k: nat, t: nat)
    requires t < k <= |c|
    ensures LastKnown(c[..k], t) == LastKnown(c, t)
  {
    if c[t] == None && t > 0 {
      LastKnownPrefix(c, k, t - 1);
    }
  }

  lemma ForwardFillPrefix<T>(c: seq<Option<T>>, default: T, k: nat)
    requires k <= |c|
    ensures ForwardFill(c, default)[..k] == ForwardFill(c[..k], default)
  {
    forall t | 0 <= t < k
      ensures ForwardFill(c, default)[t] == ForwardFill(c[..k], default)[t]
    {
      LastKnownPrefix(c, k, t);
    }
  }

  /** Dropping missing values of a truncated column is a truncation, and what follows carries later rows. */
  lemma {:induction false} DropNaPrefix(c: Column, k: nat)
    requires k <= |c|
    ensures var (l, v) := DropNa(c); var (l', v') := DropNa(c[..k]);
            && |l'| <= |l| && l[..|l'|] == l' && v[..|l'|] == v'
            && forall i :: |l'| <= i < |l| ==> l[i] >= k
    decreases |c|
  {
    if k == |c| {
      assert c[..k] == c;
    } else {
      var n := |c| - 1;
      DropNaPrefix(c[..n], k);
      assert c[..n][..k] == c[..k];
    }
  }

  /** Rows stored under later numbers do not matter for row t. */
  lemma {:induction false} LookupPrefix(labels: seq<nat>, c: Column, m: nat, t: nat)
    requires m <= |labels| == |c| && forall i :: m <= i < |labels| ==> labels[i] > t
    ensures Lookup(labels, c, t) == Lookup(labels[..m], c[..m], t)
    decreases |labels|
  {
    if m == |labels| {
      assert labels[..m] == labels && c[..m] == c;
    } else {
      var n := |labels| - 1;
      LookupPrefix(labels[..n], c[..n], m, t);
      assert labels[..n][..m] == labels[..m] && c[..n][..m] == c[..m];
    }
  }

  // ---- forward fill is a state machine

  /** Each row keeps the previous state unless it carries a value of its own. */
  lemma ForwardFillSteps<T>(c: seq<Option<T>>, default: T, t: nat)
    requires t < |c|
    ensures ForwardFill(c, default)[t] ==
            if c[t].Some? then c[t].value else if t == 0 then default else ForwardFill(c, default)[t - 1]
  {
  }
}
