/** Exact real arithmetic standing in for the source's doubles. */
module RealMath {

  function Abs(x: real): (r: real)
    ensures r >= 0.0 && (r == x || r == -x)
  {
    if x < 0.0 then -x else x
  }

  function Min(x: real, y: real): (r: real)
    ensures r <= x && r <= y && (r == x || r == y)
  {
    if y < x then y else x
  }

  function Max(x: real, y: real): (r: real)
    ensures x <= r && y <= r && (r == x || r == y)
  {
    if y > x then y else x
  }

  /** Python's int(x) and C++'s std::trunc: rounding towards zero. */
  function Truncate(x: real): (n: int)
    ensures x >= 0.0 ==> n >= 0 && n as real <= x < n as real + 1.0
    ensures x <= 0.0 ==> n <= 0 && n as real - 1.0 < x <= n as real
  {
    if x >= 0.0 then x.Floor else -((-x).Floor)
  }

  /** A quantity counted in whole units. */
  predicate Whole(x: real) {
    x == x.Floor as real
  }

  lemma WholeInt(n: int)
    ensures Whole(n as real)
  {
  }

  lemma WholeSum(x: real, y: real)
    requires Whole(x) && Whole(y)
    ensures Whole(x + y) && Whole(x - y)
  {
    var m, n := x.Floor, y.Floor;
    assert x + y == (m + n) as real && x - y == (m - n) as real;
    WholeInt(m + n);
    WholeInt(m - n);
  }

  lemma WholeAbs(x: real)
    requires Whole(x)
    ensures Whole(-x) && Whole(Abs(x))
  {
    WholeInt(0);
    WholeSum(0.0, x);
  }

  /** A whole number smaller than one unit is zero. */
  lemma WholeBelowOne(x: real)
    requires Whole(x) && Abs(x) < 1.0
    ensures x == 0.0
  {
  }

  lemma MulMono(x: real, y: real, k: real)
    requires x <= y && 0.0 <= k
    ensures x * k <= y * k
  {
  }

  lemma MulMonoStrict(x: real, y: real, k: real)
    requires x < y && 0.0 < k
    ensures x * k < y * k
  {
  }

  lemma MulNonNegative(x: real, y: real)
    requires 0.0 <= x && 0.0 <= y
    ensures 0.0 <= x * y
  {
  }

  lemma DivMul(x: real, y: real)
    requires y != 0.0
    ensures (x / y) * y == x
  {
  }

  lemma QuotientAtLeast(x: real, y: real, lo: real)
    requires y > 0.0 && lo * y <= x
    ensures lo <= x / y
  {
    DivMul(x, y);
    var q := x / y;
    if q < lo {
      MulMonoStrict(q, lo, y);
    }
  }

  lemma QuotientAtMost(x: real, y: real, hi: real)
    requires y > 0.0 && x <= hi * y
    ensures x / y <= hi
  {
    DivMul(x, y);
    var q := x / y;
    if q > hi {
      MulMonoStrict(hi, q, y);
    }
  }
}
