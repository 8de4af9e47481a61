/** The numeric pieces the price-trend model is built from: sums and means
    of reals, sums of cross-deviations, and the error metrics of
    scikit-learn (mean absolute error, mean squared error, R²). */
module Stats {

  function Sum(s: seq<real>): real
  {
    if s == [] then 0.0 else s[0] + Sum(s[1..])
  }

  function Mean(s: seq<real>): real
    requires |s| > 0
  {
    Sum(s) / |s| as real
  }

  /** The elementwise image `c * u + d` of `us`. */
  function Affine(us: seq<real>, c: real, d: real): seq<real>
  {
    seq(|us|, i requires 0 <= i < |us| => c * us[i] + d)
  }

  /** The product of the deviations of `u` from `mu` and of `v` from `mv`. */
  function Dev(u: real, mu: real, v: real, mv: real): real
  {
    (u - mu) * (v - mv)
  }

  /** The sum of `Dev` over paired elements; with `vs == us` and `mu == mv`
      it is the sum of squared deviations. */
  function CrossDev(us: seq<real>, vs: seq<real>, mu: real, mv: real): real
    requires |us| == |vs|
  {
    if us == [] then 0.0 else Dev(us[0], mu, vs[0], mv) + CrossDev(us[1..], vs[1..], mu, mv)
  }

  /** The population variance of `us`: mean squared deviation from the mean. */
  function Variance(us: seq<real>): real
    requires |us| > 0
  {
    CrossDev(us, us, Mean(us), Mean(us)) / |us| as real
  }

  // ---------------------------------------------------------------------
  // Sums and means

  /** A sum lies between `n * lo` and `n * hi` when every term does. */
  lemma {:induction false} SumBounds(s: seq<real>, lo: real, hi: real)
    requires forall i :: 0 <= i < |s| ==> lo <= s[i] <= hi
    ensures |s| as real * lo <= Sum(s) <= |s| as real * hi
  {
    if s != [] {
      SumBounds(s[1..], lo, hi);
    }
  }

  /** A mean lies between the smallest and the largest value averaged. */
  lemma MeanBounds(s: seq<real>, lo: real, hi: real)
    requires |s| > 0
    requires forall i :: 0 <= i < |s| ==> lo <= s[i] <= hi
    ensures lo <= Mean(s) <= hi
  {
    SumBounds(s, lo, hi);
    var n := |s| as real;
    assert Mean(s) * n == Sum(s);
  }

  lemma AffineTail(us: seq<real>, c: real, d: real)
    requires us != []
    ensures Affine(us, c, d)[0] == c * us[0] + d
    ensures Affine(us, c, d)[1..] == Affine(us[1..], c, d)
  {
    var a, b := Affine(us, c, d)[1..], Affine(us[1..], c, d);
    assert |a| == |b|;
    forall i | 0 <= i < |a|
      ensures a[i] == b[i]
    {
      assert a[i] == c * us[i + 1] + d;
    }
  }

  /** Summing an affine image: `sum(c * u + d) == c * sum(u) + n * d`. */
  lemma {:induction false} SumAffine(us: seq<real>, c: real, d: real)
    ensures Sum(Affine(us, c, d)) == c * Sum(us) + |us| as real * d
  {
    if us != [] {
      AffineTail(us, c, d);
      SumAffine(us[1..], c, d);
    }
  }

  /** The mean of an affine image is the affine image of the mean. */
  lemma MeanAffine(us: seq<real>, c: real, d: real)
    requires |us| > 0
    ensures Mean(Affine(us, c, d)) == c * Mean(us) + d
  {
    SumAffine(us, c, d);
    MeanOfAffineSum(c, Sum(us), d, |us| as real);
  }

  lemma MeanOfAffineSum(c: real, s: real, d: real, n: real)
    requires n > 0.0
    ensures (c * s + n * d) / n == c * (s / n) + d
  {
    assert (c * s) / n == c * (s / n);
    assert (n * d) / n == d;
  }

  lemma SquareNonNegative(x: real)
    ensures x * x >= 0.0
  {
  }

  lemma SquareOfZero(x: real)
    requires x == 0.0
    ensures x * x == 0.0
  {
  }

  /** Whatever is at least the square of a non-zero number is positive. */
  lemma AboveNonZeroSquare(c: real, x: real)
    requires x != 0.0 && c >= x * x
    ensures c > 0.0
  {
    if x > 0.0 {
      AbovePositiveProduct(c, x, x);
    } else {
      assert (-x) * (-x) == x * x;
      AbovePositiveProduct(c, -x, -x);
    }
  }

  lemma AbovePositiveProduct(c: real, x: real, y: real)
    requires x > 0.0 && y > 0.0 && c >= x * y
    ensures c > 0.0
  {
  }

  /** Deviations of `us` times those of its affine image `c * u + d`
      (taken from `mv`, the image of the centre `m`) sum to `c` times the
      squared deviations of `us`. */
  lemma CrossDevWithAffine(us: seq<real>, c: real, d: real, m: real, mv: real)
    requires mv == c * m + d
    ensures CrossDev(us, Affine(us, c, d), m, mv) == c * CrossDev(us, us, m, m)
  {
    var vs := Affine(us, c, d);
    forall i | 0 <= i < |us|
      ensures Dev(us[i], m, vs[i], mv) == c * Dev(us[i], m, us[i], m)
    {
      AffineDeviation(us[i], c, d, m, mv);
    }
    TermwiseScaled(us, vs, c, m, mv);
    ScaledSquaresFactor(us, c, m);
  }

  /** The squared deviations of `us`, each multiplied by `c`, summed. */
  function ScaledSquares(us: seq<real>, c: real, m: real): real
  {
    if us == [] then 0.0 else c * Dev(us[0], m, us[0], m) + ScaledSquares(us[1..], c, m)
  }

  /** Co-deviations that are term by term `c` times the squared deviations
      sum to the scaled squares. */
  lemma {:induction false} TermwiseScaled(us: seq<real>, vs: seq<real>, c: real, m: real, mv: real)
    requires |vs| == |us|
    requires forall i :: 0 <= i < |us| ==> Dev(us[i], m, vs[i], mv) == c * Dev(us[i], m, us[i], m)
    ensures CrossDev(us, vs, m, mv) == ScaledSquares(us, c, m)
    decreases us
  {
    if us != [] {
      TermwiseScaled(us[1..], vs[1..], c, m, mv);
    }
  }

  /** The common factor `c` comes out of the sum. */
  lemma {:induction false} ScaledSquaresFactor(us: seq<real>, c: real, m: real)
    ensures ScaledSquares(us, c, m) == c * CrossDev(us, us, m, m)
    decreases us
  {
    if us != [] {
      ScaledSquaresFactor(us[1..], c, m);
      Distribute(ScaledSquares(us, c, m), CrossDev(us, us, m, m), c * Dev(us[0], m, us[0], m),
                 ScaledSquares(us[1..], c, m), Dev(us[0], m, us[0], m), CrossDev(us[1..], us[1..], m, m), c);
    }
  }

  lemma Distribute(total: real, t: real, a: real, b: real, x: real, y: real, c: real)
    requires total == a + b && t == x + y && a == c * x && b == c * y
    ensures total == c * t
  {
  }

  lemma AffineDeviation(u: real, c: real, d: real, m: real, mv: real)
    requires mv == c * m + d
    ensures Dev(u, m, c * u + d, mv) == c * Dev(u, m, u, m)
  {
    assert (c * u + d) - mv == c * (u - m);
  }

  /** A sum of squared deviations is never negative, and is at least the
      square of any one deviation. */
  lemma {:induction false} SquaredDevBounds(us: seq<real>, m: real, i: nat)
    requires i < |us|
    ensures CrossDev(us, us, m, m) >= (us[i] - m) * (us[i] - m) >= 0.0
  {
    SquareNonNegative(us[i] - m);
    SquareNonNegative(us[0] - m);
    SquaredDevNonNegative(us[1..], m);
    if i > 0 {
      SquaredDevBounds(us[1..], m, i - 1);
    }
  }

  lemma {:induction false} SquaredDevNonNegative(us: seq<real>, m: real)
    ensures CrossDev(us, us, m, m) >= 0.0
  {
    if us != [] {
      SquareNonNegative(us[0] - m);
      SquaredDevNonNegative(us[1..], m);
    }
  }

  /** Two different values leave a positive sum of squared deviations,
      whatever the centre. */
  lemma SpreadIsPositive(us: seq<real>, m: real, i: nat, j: nat)
    requires i < |us| && j < |us| && us[i] != us[j]
    ensures CrossDev(us, us, m, m) > 0.0
  {
    var k := if us[i] != m then i else j;
    SquaredDevBounds(us, m, k);
    AboveNonZeroSquare(CrossDev(us, us, m, m), us[k] - m);
  }

  // ---------------------------------------------------------------------
  // Error metrics, as scikit-learn computes them

  /** A metric value: a real, or the NaN that `r2_score` returns for fewer
      than two samples (and that any arithmetic on it propagates). */
  datatype Score = Finite(value: real) | NaN

  /** `score * 100` */
  function Percent(s: Score): Score
  {
    match s
    case Finite(v) => Finite(v * 100.0)
    case NaN => NaN
  }

  function Abs(x: real): real
  {
    if x < 0.0 then -x else x
  }

  /** The sum of `|y - p|` over paired elements. */
  function SumAbsErrors(ys: seq<real>, ps: seq<real>): (r: real)
    requires |ys| == |ps|
    ensures r >= 0.0
  {
    if ys == [] then 0.0 else Abs(ys[0] - ps[0]) + SumAbsErrors(ys[1..], ps[1..])
  }

  /** The sum of `(y - p)²` over paired elements (the residual sum of squares). */
  function SumSqErrors(ys: seq<real>, ps: seq<real>): (r: real)
    requires |ys| == |ps|
    ensures r >= 0.0
  {
    if ys == [] then 0.0
    else
      var e := ys[0] - ps[0];
      SquareNonNegative(e);
      e * e + SumSqErrors(ys[1..], ps[1..])
  }

  /** The residual sum of squares vanishes exactly on a perfect fit. */
  lemma {:induction false} SumSqErrorsVanish(ys: seq<real>, ps: seq<real>)
    requires |ys| == |ps|
    ensures ys == ps ==> SumSqErrors(ys, ps) == 0.0
    ensures ys != ps ==> SumSqErrors(ys, ps) > 0.0
  {
    if ys != [] {
      SumSqErrorsVanish(ys[1..], ps[1..]);
      var e := ys[0] - ps[0];
      if e != 0.0 {
        AboveNonZeroSquare(SumSqErrors(ys, ps), e);
      } else {
        SquareOfZero(e);
        assert ys == [ys[0]] + ys[1..] && ps == [ps[0]] + ps[1..];
      }
    }
  }

  /** `mean_absolute_error(ys, ps)` */
  function MeanAbsoluteError(ys: seq<real>, ps: seq<real>): (r: real)
    requires |ys| == |ps| > 0
    ensures r >= 0.0
    ensures r == 0.0 <==> forall i :: 0 <= i < |ys| ==> ys[i] == ps[i]
  {
    AbsErrorsVanish(ys, ps);
    SumAbsErrors(ys, ps) / |ys| as real
  }

  lemma {:induction false} AbsErrorsVanish(ys: seq<real>, ps: seq<real>)
    requires |ys| == |ps|
    ensures SumAbsErrors(ys, ps) == 0.0 <==> forall i :: 0 <= i < |ys| ==> ys[i] == ps[i]
  {
    if ys != [] {
      AbsErrorsVanish(ys[1..], ps[1..]);
      assert (forall i :: 0 <= i < |ys| ==> ys[i] == ps[i])
        <==> ys[0] == ps[0] && forall i :: 0 <= i < |ys| - 1 ==> ys[1..][i] == ps[1..][i];
    }
  }

  /** `mean_squared_error(ys, ps)` */
  function MeanSquaredError(ys: seq<real>, ps: seq<real>): (r: real)
    requires |ys| == |ps| > 0
    ensures r >= 0.0
    ensures ys == ps ==> r == 0.0
    ensures ys != ps ==> r > 0.0
  {
    SumSqErrorsVanish(ys, ps);
    SumSqErrors(ys, ps) / |ys| as real
  }

  /** `r2_score(ys, ps)`: NaN for fewer than two samples; for a constant
      target 1.0 on a perfect fit and 0.0 otherwise; else
      `1 - SS_res / SS_tot`. */
  function R2(ys: seq<real>, ps: seq<real>): (r: Score)
    requires |ys| == |ps|
    ensures r.NaN? <==> |ys| < 2
    ensures r.Finite? ==> r.value <= 1.0
    ensures r.Finite? ==> (r.value == 1.0 <==> ys == ps)
  {
    if |ys| < 2 then NaN
    else
      var ssRes := SumSqErrors(ys, ps);
      var ssTot := CrossDev(ys, ys, Mean(ys), Mean(ys));
      SquaredDevNonNegative(ys, Mean(ys));
      SumSqErrorsVanish(ys, ps);
      if ssTot == 0.0 then Finite(if ssRes == 0.0 then 1.0 else 0.0)
      else
        assert ssRes / ssTot >= 0.0;
        assert ssRes == 0.0 ==> ssRes / ssTot == 0.0;
        assert ssRes > 0.0 ==> ssRes / ssTot > 0.0;
        Finite(1.0 - ssRes / ssTot)
  }
}
