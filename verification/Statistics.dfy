/** Window statistics on exact reals, and the inequalities the indicators rest on. */
module Statistics {
  import opened RealMath

  function Sum(v: seq<real>): real {
    if v == [] then 0.0 else Sum(v[..|v| - 1]) + v[|v| - 1]
  }

  function Times(x: real, y: real): real {
    x * y
  }

  function Dot(a: seq<real>, b: seq<real>): real
    requires |a| == |b|
  {
    if a == [] then 0.0 else Dot(a[..|a| - 1], b[..|b| - 1]) + Times(a[|a| - 1], b[|b| - 1])
  }

  function Mean(v: seq<real>): real {
    if v == [] then 0.0 else Sum(v) / |v| as real
  }

  function Centred(v: seq<real>): (d: seq<real>)
    ensures |d| == |v|
  {
    seq(|v|, i requires 0 <= i < |v| => v[i] - Mean(v))
  }

  /** Population covariance (ddof = 0). */
  function Covariance(a: seq<real>, b: seq<real>): real
    requires |a| == |b|
  {
    if a == [] then 0.0 else Dot(Centred(a), Centred(b)) / |a| as real
  }

  /** Population variance (ddof = 0). */
  function Variance(v: seq<real>): real {
    Covariance(v, v)
  }

  // ---- linear algebra of sequences

  function MinusTerm(x: real, k: real, y: real): real {
    x - k * y
  }

  /** a - k b, term by term. */
  function Minus(a: seq<real>, k: real, b: seq<real>): (r: seq<real>)
    requires |a| == |b|
    ensures |r| == |a|
  {
    seq(|a|, i requires 0 <= i < |a| => MinusTerm(a[i], k, b[i]))
  }

  lemma MinusInit(a: seq<real>, k: real, b: seq<real>)
    requires |a| == |b| > 0
    ensures var n := |a| - 1;
            && Minus(a, k, b)[..n] == Minus(a[..n], k, b[..n])
            && Minus(a, k, b)[n] == MinusTerm(a[n], k, b[n])
  {
    hide MinusTerm;
  }

  function Ones(n: nat): (r: seq<real>)
    ensures |r| == n
  {
    seq(n, _ => 1.0)
  }

  lemma TimesSymmetric(x: real, y: real)
    ensures Times(x, y) == Times(y, x)
  {
  }

  lemma {:induction false} DotSymmetric(a: seq<real>, b: seq<real>)
    requires |a| == |b|
    ensures Dot(a, b) == Dot(b, a)
  {
    if a != [] {
      var n := |a| - 1;
      DotSymmetric(a[..n], b[..n]);
      TimesSymmetric(a[n], b[n]);
      hide Times;
    }
  }

  lemma {:induction false} DotMinus(a: seq<real>, k: real, b: seq<real>, c: seq<real>)
    requires |a| == |b| == |c|
    ensures Dot(Minus(a, k, b), c) == Dot(a, c) - Times(k, Dot(b, c))
  {
    if a != [] {
      var n := |a| - 1;
      DotMinus(a[..n], k, b[..n], c[..n]);
      MinusInit(a, k, b);
      Distribute(a[n], k, b[n], c[n], Dot(b[..n], c[..n]));
      hide Minus, MinusTerm, Times;
    }
  }

  lemma Distribute(x: real, k: real, y: real, z: real, s: real)
    ensures Times(MinusTerm(x, k, y), z) - Times(k, s) == Times(x, z) - Times(k, s + Times(y, z))
  {
  }

  /** p - 2 k q + k^2 r. */
  function Parabola(p: real, q: real, r: real, k: real): real {
    p - 2.0 * (k * q) + k * (k * r)
  }

  lemma ParabolaFromParts(p: real, q: real, r: real, k: real, m: real, x: real, y: real)
    requires m == x - Times(k, y) && x == p - Times(k, q) && y == q - Times(k, r)
    ensures m == Parabola(p, q, r, k)
  {
    assert k * y == k * q - k * (k * r);
  }

  /** |a - k b|^2 = |a|^2 - 2 k a.b + k^2 |b|^2. */
  lemma NormOfMinus(a: seq<real>, k: real, b: seq<real>)
    requires |a| == |b|
    ensures Dot(Minus(a, k, b), Minus(a, k, b)) == Parabola(Dot(a, a), Dot(a, b), Dot(b, b), k)
  {
    hide Dot, Minus, Parabola, Times;
    var m := Minus(a, k, b);
    DotMinus(a, k, b, m);
    DotSymmetric(a, m);
    DotSymmetric(b, m);
    DotMinus(a, k, b, a);
    DotMinus(a, k, b, b);
    DotSymmetric(a, b);
    ParabolaFromParts(Dot(a, a), Dot(a, b), Dot(b, b), k, Dot(m, m), Dot(a, m), Dot(b, m));
  }

  lemma TimesPositive(x: real, y: real)
    requires x > 0.0 && y > 0.0
    ensures Times(x, y) > 0.0
  {
    MulMonoStrict(0.0, x, y);
  }

  lemma TimesNegated(x: real)
    ensures Times(-x, -x) == Times(x, x)
  {
  }

  lemma SquareSign(x: real)
    ensures Times(x, x) >= 0.0
    ensures x != 0.0 ==> Times(x, x) > 0.0
  {
    TimesNegated(x);
    if x > 0.0 {
      TimesPositive(x, x);
    } else if x < 0.0 {
      TimesPositive(-x, -x);
    } else {
      assert Times(0.0, 0.0) == 0.0;
    }
    hide Times;
  }

  lemma {:induction false} NormNonNegative(a: seq<real>)
    ensures Dot(a, a) >= 0.0
  {
    hide Times;
    if a != [] {
      NormNonNegative(a[..|a| - 1]);
      SquareSign(a[|a| - 1]);
    }
  }

  lemma {:induction false} NormPositive(a: seq<real>, i: nat)
    requires i < |a| && a[i] != 0.0
    ensures Dot(a, a) > 0.0
  {
    hide Times;
    var n := |a| - 1;
    NormNonNegative(a[..n]);
    SquareSign(a[n]);
    if i < n {
      NormPositive(a[..n], i);
    }
  }

  lemma {:induction false} DotWithZero(a: seq<real>, b: seq<real>)
    requires |a| == |b| && forall i :: 0 <= i < |b| ==> b[i] == 0.0
    ensures Dot(a, b) == 0.0
  {
    if a != [] {
      DotWithZero(a[..|a| - 1], b[..|b| - 1]);
    }
  }

  lemma {:induction false} DotOnes(a: seq<real>)
    ensures Dot(a, Ones(|a|)) == Sum(a)
    ensures Dot(Ones(|a|), Ones(|a|)) == |a| as real
  {
    if a != [] {
      var n := |a| - 1;
      DotOnes(a[..n]);
      assert Ones(|a|)[..n] == Ones(n);
      assert Times(a[n], 1.0) == a[n] && Times(1.0, 1.0) == 1.0;
    }
  }

  /** (a.b)^2 <= |a|^2 |b|^2. */
  lemma CauchySchwarz(a: seq<real>, b: seq<real>)
    requires |a| == |b|
    ensures Times(Dot(a, b), Dot(a, b)) <= Times(Dot(a, a), Dot(b, b))
  {
    var p, q, r := Dot(a, a), Dot(a, b), Dot(b, b);
    NormNonNegative(b);
    if r == 0.0 {
      forall i | 0 <= i < |b|
        ensures b[i] == 0.0
      {
        if b[i] != 0.0 {
          NormPositive(b, i);
        }
      }
      DotWithZero(a, b);
      assert Times(0.0, 0.0) == 0.0 == Times(p, 0.0);
    } else {
      var k := q / r;
      NormOfMinus(a, k, b);
      NormNonNegative(Minus(a, k, b));
      hide Dot, Minus, Parabola;
      DiscriminantBound(p, q, r, k);
    }
    hide Dot, Times;
  }

  lemma DiscriminantBound(p: real, q: real, r: real, k: real)
    requires r > 0.0 && k == q / r && Parabola(p, q, r, k) >= 0.0
    ensures Times(q, q) <= Times(p, r)
  {
    DivMul(q, r);
    assert k * r == q;
    assert k * (k * r) == k * q;
    MulMono(k * q, p, r);
    assert (k * q) * r == q * (k * r);
  }

  // ---- centring

  lemma {:induction false} SumOfShift(v: seq<real>, m: real, d: seq<real>)
    requires |d| == |v| && forall i :: 0 <= i < |v| ==> d[i] == v[i] - m
    ensures Sum(d) == Sum(v) - |v| as real * m
  {
    if v != [] {
      var n := |v| - 1;
      SumOfShift(v[..n], m, d[..n]);
      assert |v| as real * m == n as real * m + m;
    }
  }

  lemma CentredSumsToZero(v: seq<real>)
    ensures Sum(Centred(v)) == 0.0
  {
    SumOfShift(v, Mean(v), Centred(v));
    if v != [] {
      DivMul(Sum(v), |v| as real);
    }
  }

  lemma VarianceTimesCount(a: seq<real>, b: seq<real>)
    requires |a| == |b| > 0
    ensures Times(Covariance(a, b), |a| as real) == Dot(Centred(a), Centred(b))
  {
    DivMul(Dot(Centred(a), Centred(b)), |a| as real);
  }

  lemma VarianceNonNegative(v: seq<real>)
    ensures Variance(v) >= 0.0
  {
    if v != [] {
      NormNonNegative(Centred(v));
      hide Dot, Centred;
      var n := |v| as real;
      QuotientAtLeast(Dot(Centred(v), Centred(v)), n, 0.0);
    }
  }

  /** cov(a, b)^2 <= var(a) var(b): a correlation lies in [-1, 1]. */
  lemma CorrelationBound(a: seq<real>, b: seq<real>)
    requires |a| == |b|
    ensures Times(Covariance(a, b), Covariance(a, b)) <= Times(Variance(a), Variance(b))
  {
    if a != [] {
      CauchySchwarz(Centred(a), Centred(b));
      VarianceTimesCount(a, b);
      VarianceTimesCount(a, a);
      VarianceTimesCount(b, b);
      hide Covariance, Dot, Centred, Times;
      ScaledBound(Covariance(a, b), Variance(a), Variance(b), |a| as real);
    }
  }

  lemma ScaledProduct(x: real, y: real, n: real)
    ensures Times(Times(x, n), Times(y, n)) == Times(Times(x, y), Times(n, n))
  {
  }

  lemma TimesCancels(x: real, y: real, n: real)
    requires n > 0.0 && Times(x, n) <= Times(y, n)
    ensures x <= y
  {
    if x > y {
      MulMonoStrict(y, x, n);
    }
  }

  lemma ScaledBound(c: real, p: real, r: real, n: real)
    requires n > 0.0 && Times(Times(c, n), Times(c, n)) <= Times(Times(p, n), Times(r, n))
    ensures Times(c, c) <= Times(p, r)
  {
    ScaledProduct(c, c, n);
    ScaledProduct(p, r, n);
    TimesPositive(n, n);
    hide Times;
    TimesCancels(Times(c, c), Times(p, r), Times(n, n));
  }

  // ---- Samuelson's inequality

  lemma SumSquared(v: seq<real>)
    ensures Times(Sum(v), Sum(v)) <= Times(|v| as real, Dot(v, v))
  {
    hide Times, Dot, Sum;
    CauchySchwarz(v, Ones(|v|));
    DotOnes(v);
    TimesSymmetric(Dot(v, v), |v| as real);
  }

  /** The last value of a window lies within sqrt(w - 1) population deviations of its mean. */
  lemma Samuelson(v: seq<real>)
    requires |v| > 0
    ensures var d := v[|v| - 1] - Mean(v); Times(d, d) <= Times((|v| - 1) as real, Variance(v))
  {
    var c, w := Centred(v), |v|;
    var rest, d := c[..w - 1], c[w - 1];
    CentredSumsToZero(v);
    assert Sum(c) == Sum(rest) + d;
    assert Dot(c, c) == Dot(rest, rest) + Times(d, d);
    SumSquared(rest);
    VarianceTimesCount(v, v);
    hide Sum, Dot, Centred, Covariance, Times;
    TimesNegated(d);
    assert Sum(rest) == -d;
    SamuelsonAlgebra(Times(d, d), Dot(rest, rest), Variance(v), w as real);
  }

  lemma SamuelsonAlgebra(dd: real, rest: real, variance: real, w: real)
    requires w >= 1.0 && dd <= Times(w - 1.0, rest) && Times(variance, w) == rest + dd
    ensures dd <= Times(w - 1.0, variance)
  {
    assert (w - 1.0) * rest == (w - 1.0) * (variance * w) - (w - 1.0) * dd;
    assert (w - 1.0) * dd == w * dd - dd;
    assert w * dd <= (w - 1.0) * (variance * w);
    assert (w - 1.0) * (variance * w) == ((w - 1.0) * variance) * w;
    if dd > (w - 1.0) * variance {
      MulMonoStrict((w - 1.0) * variance, dd, w);
    }
  }

  // ---- least squares

  function Square(x: real): real {
    x * x
  }

  /** What the line alpha + beta y misses x by. */
  function Residual(x: real, alpha: real, beta: real, y: real): real {
    x - alpha - beta * y
  }

  /** Sum of squared residuals of a fitted by alpha + beta b. */
  function SquaredError(a: seq<real>, b: seq<real>, alpha: real, beta: real): real
    requires |a| == |b|
  {
    if a == [] then 0.0
    else
      var n := |a| - 1;
      SquaredError(a[..n], b[..n], alpha, beta) + Square(Residual(a[n], alpha, beta, b[n]))
  }

  function Cross(c: real, s: real): real {
    2.0 * (c * s)
  }

  function Offset(n: real, c: real): real {
    n * (c * c)
  }

  lemma SquareOfSum(x: real, c: real, s: real, n: real)
    ensures Square(x + c) == Times(x, x) + Cross(c, x) + Square(c)
    ensures Cross(c, s + x) == Cross(c, s) + Cross(c, x)
    ensures Offset(n + 1.0, c) == Offset(n, c) + Square(c)
  {
  }

  /** Residuals r shifted by a constant c. */
  lemma {:induction false} ErrorSplits(a: seq<real>, b: seq<real>, alpha: real, beta: real,
                                       r: seq<real>, c: real)
    requires |a| == |b| == |r|
    requires forall i :: 0 <= i < |a| ==> r[i] + c == Residual(a[i], alpha, beta, b[i])
    ensures SquaredError(a, b, alpha, beta) == Dot(r, r) + Cross(c, Sum(r)) + Offset(|a| as real, c)
  {
    if a != [] {
      var n := |a| - 1;
      hide Square, Residual, Cross, Offset, Times;
      assert forall i :: 0 <= i < n ==> r[..n][i] == r[i] && a[..n][i] == a[i] && b[..n][i] == b[i];
      ErrorSplits(a[..n], b[..n], alpha, beta, r[..n], c);
      SquareOfSum(r[n], c, Sum(r[..n]), n as real);
      assert SquaredError(a, b, alpha, beta) == SquaredError(a[..n], b[..n], alpha, beta) + Square(r[n] + c);
      assert Dot(r, r) == Dot(r[..n], r[..n]) + Times(r[n], r[n]);
      assert Sum(r) == Sum(r[..n]) + r[n];
    }
  }

  lemma {:induction false} SumMinus(a: seq<real>, k: real, b: seq<real>)
    requires |a| == |b|
    ensures Sum(Minus(a, k, b)) == Sum(a) - k * Sum(b)
  {
    if a != [] {
      var n := |a| - 1;
      SumMinus(a[..n], k, b[..n]);
      MinusInit(a, k, b);
      hide Minus;
      assert k * (Sum(b[..n]) + b[n]) == k * Sum(b[..n]) + k * b[n];
    }
  }

  lemma CentredTerm(x: real, y: real, mx: real, my: real, alpha: real, beta: real)
    ensures MinusTerm(x - mx, beta, y - my) + Residual(mx, alpha, beta, my) == Residual(x, alpha, beta, y)
  {
    assert beta * (y - my) == beta * y - beta * my;
  }

  lemma CentredResiduals(a: seq<real>, b: seq<real>, alpha: real, beta: real)
    requires |a| == |b|
    ensures var r, c := Minus(Centred(a), beta, Centred(b)), Residual(Mean(a), alpha, beta, Mean(b));
            forall i :: 0 <= i < |a| ==> r[i] + c == Residual(a[i], alpha, beta, b[i])
  {
    forall i | 0 <= i < |a|
      ensures Minus(Centred(a), beta, Centred(b))[i] + (Residual(Mean(a), alpha, beta, Mean(b))) == Residual(a[i], alpha, beta, b[i])
    {
      CentredTerm(a[i], b[i], Mean(a), Mean(b), alpha, beta);
      hide MinusTerm, Mean, Residual;
    }
  }

  /** The error of any line, in terms of the centred windows and the line's value at the mean. */
  lemma ErrorOfLine(a: seq<real>, b: seq<real>, alpha: real, beta: real)
    requires |a| == |b| > 0
    ensures var ca, cb, c := Centred(a), Centred(b), Residual(Mean(a), alpha, beta, Mean(b));
            SquaredError(a, b, alpha, beta) ==
            Parabola(Dot(ca, ca), Dot(ca, cb), Dot(cb, cb), beta) + Offset(|a| as real, c)
  {
    hide Dot, Sum, Centred, Minus, SquaredError, Mean, Parabola, Residual;
    var ca, cb, c := Centred(a), Centred(b), Residual(Mean(a), alpha, beta, Mean(b));
    var r := Minus(ca, beta, cb);
    CentredResiduals(a, b, alpha, beta);
    ErrorSplits(a, b, alpha, beta, r, c);
    SumMinus(ca, beta, cb);
    CentredSumsToZero(a);
    CentredSumsToZero(b);
    NormOfMinus(ca, beta, cb);
    assert Sum(r) == 0.0;
    assert Cross(c, 0.0) == 0.0;
    hide Cross, Offset;
  }

  /** Completing the square: the slope q / r minimises p - 2 k q + k^2 r. */
  lemma BestSlope(p: real, q: real, r: real, k: real, best: real)
    requires r > 0.0 && best == q / r
    ensures Parabola(p, q, r, best) <= Parabola(p, q, r, k)
  {
    DivMul(q, r);
    assert q == best * r;
    var e := k - best;
    assert e * e >= 0.0;
    MulNonNegative(e * e, r);
    assert (e * e) * r == k * (k * r) - 2.0 * (k * (best * r)) + best * (best * r);
  }

  lemma SlopeOfCentred(a: seq<real>, b: seq<real>)
    requires |a| == |b| > 0 && Variance(b) > 0.0
    ensures Dot(Centred(b), Centred(b)) > 0.0
    ensures Covariance(a, b) / Variance(b) == Dot(Centred(a), Centred(b)) / Dot(Centred(b), Centred(b))
  {
    var n := |a| as real;
    VarianceTimesCount(a, b);
    VarianceTimesCount(b, b);
    hide Dot, Centred, Covariance;
    QuotientScales(Covariance(a, b), Variance(b), n);
  }

  lemma QuotientScales(x: real, y: real, n: real)
    requires y > 0.0 && n > 0.0
    ensures y * n > 0.0 && x / y == (x * n) / (y * n)
  {
    MulMonoStrict(0.0, y, n);
    var q := x / y;
    DivMul(x, y);
    assert q * (y * n) == (q * y) * n == x * n;
    QuotientUnique(q, x * n, y * n);
  }

  lemma QuotientUnique(q: real, x: real, y: real)
    requires y > 0.0 && q * y == x
    ensures x / y == q
  {
    DivMul(x, y);
    var z := x / y;
    if z < q {
      MulMonoStrict(z, q, y);
    } else if z > q {
      MulMonoStrict(q, z, y);
    }
  }

  /** The line of the given slope through the two means. */
  function Intercept(a: seq<real>, b: seq<real>, slope: real): real {
    Mean(a) - slope * Mean(b)
  }

  lemma InterceptFits(a: seq<real>, b: seq<real>, slope: real)
    ensures Residual(Mean(a), Intercept(a, b, slope), slope, Mean(b)) == 0.0
  {
    hide Mean;
  }

  lemma OffsetSign(n: real, c: real)
    requires n >= 0.0
    ensures Offset(n, c) >= 0.0 && Offset(n, 0.0) == 0.0
  {
    assert c * c >= 0.0;
    MulNonNegative(c * c, n);
  }

  /** hedge_ratio: cov / var, with its own intercept, beats every other line on the window. */
  lemma LeastSquares(a: seq<real>, b: seq<real>, alpha: real, beta: real)
    requires |a| == |b| > 0 && Variance(b) > 0.0
    ensures var slope := Covariance(a, b) / Variance(b);
            SquaredError(a, b, Intercept(a, b, slope), slope) <= SquaredError(a, b, alpha, beta)
  {
    var slope := Covariance(a, b) / Variance(b);
    var intercept := Intercept(a, b, slope);
    var ca, cb := Centred(a), Centred(b);
    SlopeOfCentred(a, b);
    InterceptFits(a, b, slope);
    hide Dot, Centred, Covariance, SquaredError, Mean, Parabola, Offset, Residual, Intercept;
    ErrorOfLine(a, b, intercept, slope);
    ErrorOfLine(a, b, alpha, beta);
    BestSlope(Dot(ca, ca), Dot(ca, cb), Dot(cb, cb), beta, slope);
    OffsetSign(|a| as real, Residual(Mean(a), alpha, beta, Mean(b)));
  }

  // ---- order of products and squares

  lemma SquareGrows(y: real, x: real)
    requires 0.0 <= y < x
    ensures Times(y, y) < Times(x, x)
  {
    MulMonoStrict(0.0, x - y, x + y);
    assert (x - y) * (x + y) == x * x - y * y;
  }

  lemma SquareOrder(x: real, y: real)
    requires y >= 0.0 && Times(x, x) <= Times(y, y)
    ensures -y <= x <= y
  {
    TimesNegated(x);
    hide Times;
    if x > y {
      SquareGrows(y, x);
    } else if x < -y {
      SquareGrows(y, -x);
    }
  }

  lemma TimesOfSquares(k: real, s: real)
    ensures Times(Times(k, s), Times(k, s)) == Times(Times(k, k), Times(s, s))
  {
  }

  lemma TimesNonNegative(x: real, y: real)
    requires x >= 0.0 && y >= 0.0
    ensures Times(x, y) >= 0.0
  {
  }

  lemma TimesMono(x: real, y: real, k: real)
    requires x <= y && k >= 0.0
    ensures Times(x, k) <= Times(y, k)
  {
    MulMono(x, y, k);
  }

  lemma TimesMinus(k: real, s: real)
    ensures Times(-k, s) == -Times(k, s)
  {
  }

  lemma TimesMonoStrict(x: real, y: real, k: real)
    requires x < y && k > 0.0
    ensures Times(x, k) < Times(y, k)
  {
    MulMonoStrict(x, y, k);
  }

  lemma StrictlyBelow(x: real, y: real)
    requires x >= 0.0 && y > 0.0 && Times(x, x) < Times(y, y)
    ensures x < y
  {
    hide Times;
    if x > y {
      SquareGrows(y, x);
    }
  }
}
