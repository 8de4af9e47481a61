/** The regression the price-trend model trains: the day offsets are
    standardised (scikit-learn's StandardScaler) and a least-squares line
    is fitted to the standardised offsets (scikit-learn's LinearRegression,
    one feature). */
module Regression {
  import opened Stats

  function Reals(xs: seq<int>): seq<real>
  {
    seq(|xs|, i requires 0 <= i < |xs| => xs[i] as real)
  }

  /** `sqrt` returns the non-negative square root of every non-negative real. */
  ghost predicate ExactSqrt(sqrt: real -> real)
  {
    forall v :: 0.0 <= v ==> 0.0 <= sqrt(v) && sqrt(v) * sqrt(v) == v
  }

  /** A fitted StandardScaler: the feature's mean and its scale. */
  datatype Scaler = Scaler(mean: real, scale: real)

  /** `StandardScaler().fit(X)`: the mean, and the population standard
      deviation as the scale, except that a constant column gets scale 1. */
  function FitScaler(xs: seq<int>, sqrt: real -> real): Scaler
    requires |xs| > 0
  {
    var v := Variance(Reals(xs));
    Scaler(Mean(Reals(xs)), if v == 0.0 then 1.0 else sqrt(v))
  }

  /** `(x - mean) / scale` */
  function Standardize(sc: Scaler, x: real): real
    requires sc.scale != 0.0
  {
    (x - sc.mean) / sc.scale
  }

  /** `scaler.transform(X)` */
  function Transform(sc: Scaler, xs: seq<int>): seq<real>
    requires sc.scale != 0.0
  {
    seq(|xs|, i requires 0 <= i < |xs| => Standardize(sc, xs[i] as real))
  }

  /** A fitted one-feature LinearRegression. */
  datatype Line = Line(coef: real, intercept: real)

  /** `model.predict([[z]])` */
  function At(line: Line, z: real): real
  {
    line.coef * z + line.intercept
  }

  /** `LinearRegression().fit(Z, y)` on one feature: the least-squares
      slope of the centred data (zero when the feature is constant, the
      minimum-norm solution), and the intercept through the means. */
  function FitLine(zs: seq<real>, ys: seq<real>): Line
    requires |zs| == |ys| > 0
  {
    LineThroughMeans(LeastSquaresSlope(zs, ys), Mean(zs), Mean(ys))
  }

  /** The line of slope `coef` through the point `(mz, my)`. */
  function LineThroughMeans(coef: real, mz: real, my: real): Line
  {
    Line(coef, my - coef * mz)
  }

  /** The least-squares slope: the centred cross products over the centred
      squares, or zero when the feature is constant. */
  function LeastSquaresSlope(zs: seq<real>, ys: seq<real>): real
    requires |zs| == |ys| > 0
  {
    var sxx := CrossDev(zs, zs, Mean(zs), Mean(zs));
    if sxx == 0.0 then 0.0 else CrossDev(zs, ys, Mean(zs), Mean(ys)) / sxx
  }

  /** `model.predict(scaler.transform(X))` */
  function Predictions(sc: Scaler, line: Line, xs: seq<int>): seq<real>
    requires sc.scale != 0.0
  {
    seq(|xs|, i requires 0 <= i < |xs| => At(line, Standardize(sc, xs[i] as real)))
  }

  // ---------------------------------------------------------------------
  // The fitted scaler

  /** Standardising loses nothing: `inverse_transform` gives back every
      offset. */
  lemma TransformRoundTrip(sc: Scaler, xs: seq<int>)
    requires sc.scale != 0.0
    ensures |Transform(sc, xs)| == |xs|
    ensures forall i :: 0 <= i < |xs| ==> Transform(sc, xs)[i] * sc.scale + sc.mean == xs[i] as real
  {
    forall i | 0 <= i < |xs|
      ensures Transform(sc, xs)[i] * sc.scale + sc.mean == xs[i] as real
    {
      Unscale(xs[i] as real, sc.mean, sc.scale);
    }
  }

  lemma Unscale(x: real, m: real, s: real)
    requires s != 0.0
    ensures ((x - m) / s) * s + m == x
  {
  }

  /** A fitted scale is positive, so standardising never divides by zero;
      for a column that is not constant it is the standard deviation. */
  lemma FittedScaleIsPositive(xs: seq<int>, sqrt: real -> real)
    requires |xs| > 0 && ExactSqrt(sqrt)
    ensures FitScaler(xs, sqrt).scale > 0.0
    ensures Variance(Reals(xs)) >= 0.0
    ensures Variance(Reals(xs)) != 0.0 ==>
      FitScaler(xs, sqrt).scale * FitScaler(xs, sqrt).scale == Variance(Reals(xs))
  {
    var us := Reals(xs);
    SquaredDevNonNegative(us, Mean(us));
    var v := Variance(us);
    if v != 0.0 {
      var s := sqrt(v);
      if s == 0.0 {
        SquareOfZero(s);
      }
    }
  }

  /** After `fit_transform` the feature has mean 0. */
  lemma StandardizedMean(xs: seq<int>, sqrt: real -> real)
    requires |xs| > 0 && ExactSqrt(sqrt)
    ensures FitScaler(xs, sqrt).scale > 0.0
    ensures Mean(Transform(FitScaler(xs, sqrt), xs)) == 0.0
  {
    var sc := FitScaler(xs, sqrt);
    FittedScaleIsPositive(xs, sqrt);
    CentreMapsToZero(sc, xs);
  }

  /** Standardising is an affine map that sends the mean to 0. */
  lemma CentreMapsToZero(sc: Scaler, xs: seq<int>)
    requires sc.scale != 0.0 && |xs| > 0 && sc.mean == Mean(Reals(xs))
    ensures Mean(Transform(sc, xs)) == 0.0
  {
    TransformIsAffine(sc, xs);
    DivisionIsAffine(sc.mean, sc.mean, sc.scale);
    MeanAffine(Reals(xs), 1.0 / sc.scale, -sc.mean / sc.scale);
  }

  lemma TransformIsAffine(sc: Scaler, xs: seq<int>)
    requires sc.scale != 0.0
    ensures Transform(sc, xs) == Affine(Reals(xs), 1.0 / sc.scale, -sc.mean / sc.scale)
  {
    forall i | 0 <= i < |xs|
      ensures Transform(sc, xs)[i] == Affine(Reals(xs), 1.0 / sc.scale, -sc.mean / sc.scale)[i]
    {
      DivisionIsAffine(xs[i] as real, sc.mean, sc.scale);
    }
  }

  lemma DivisionIsAffine(x: real, m: real, s: real)
    requires s != 0.0
    ensures (x - m) / s == (1.0 / s) * x + -m / s
  {
  }

  // ---------------------------------------------------------------------
  // The fitted line

  /** The fitted line passes through the means: its predictions average to
      the mean target (the residuals sum to zero). */
  lemma FitThroughMeans(zs: seq<real>, ys: seq<real>)
    requires |zs| == |ys| > 0
    ensures Mean(Affine(zs, FitLine(zs, ys).coef, FitLine(zs, ys).intercept)) == Mean(ys)
  {
    MeanOfLineThroughMeans(zs, LeastSquaresSlope(zs, ys), Mean(ys));
  }

  lemma MeanOfLineThroughMeans(zs: seq<real>, coef: real, my: real)
    requires |zs| > 0
    ensures Mean(Affine(zs, coef, LineThroughMeans(coef, Mean(zs), my).intercept)) == my
  {
    MeanAffine(zs, coef, my - coef * Mean(zs));
  }

  /** The fitted line solves the least-squares normal equations: it passes
      through the mean point, and its coefficient times the feature's
      spread is the feature's co-deviation with the target (zero when the
      feature is constant). */
  lemma FitLineNormalEquations(zs: seq<real>, ys: seq<real>)
    requires |zs| == |ys| > 0
    ensures At(FitLine(zs, ys), Mean(zs)) == Mean(ys)
    ensures var sxx := CrossDev(zs, zs, Mean(zs), Mean(zs));
            && (sxx != 0.0 ==> FitLine(zs, ys).coef * sxx == CrossDev(zs, ys, Mean(zs), Mean(ys)))
            && (sxx == 0.0 ==> FitLine(zs, ys).coef == 0.0)
  {
    var mz, my := Mean(zs), Mean(ys);
    var sxx, sxy := CrossDev(zs, zs, mz, mz), CrossDev(zs, ys, mz, my);
    var coef := LeastSquaresSlope(zs, ys);
    assert FitLine(zs, ys) == LineThroughMeans(coef, mz, my);
    ThroughPoint(coef, mz, my);
    assert FitLine(zs, ys).coef == coef;
    if sxx != 0.0 {
      QuotientTimesDivisor(coef, sxy, sxx);
    }
  }

  lemma ThroughPoint(coef: real, mz: real, my: real)
    ensures At(LineThroughMeans(coef, mz, my), mz) == my
  {
  }

  lemma QuotientTimesDivisor(q: real, x: real, y: real)
    requires y != 0.0 && q == x / y
    ensures q * y == x
  {
  }

  /** Least squares recovers an exact affine relation between a feature
      that takes at least two values and the target. */
  lemma FitLineExact(zs: seq<real>, slope: real, intercept: real, i: nat, j: nat)
    requires i < |zs| && j < |zs| && zs[i] != zs[j]
    ensures FitLine(zs, Affine(zs, slope, intercept)) == Line(slope, intercept)
  {
    var ys := Affine(zs, slope, intercept);
    ExactSlope(zs, slope, intercept, i, j);
    MeanAffine(zs, slope, intercept);
    LineThroughAffineMean(slope, intercept, Mean(zs), Mean(ys));
  }

  lemma LineThroughAffineMean(slope: real, intercept: real, mz: real, my: real)
    requires my == slope * mz + intercept
    ensures LineThroughMeans(slope, mz, my) == Line(slope, intercept)
  {
  }

  lemma ExactSlope(zs: seq<real>, slope: real, intercept: real, i: nat, j: nat)
    requires i < |zs| && j < |zs| && zs[i] != zs[j]
    ensures LeastSquaresSlope(zs, Affine(zs, slope, intercept)) == slope
  {
    var ys := Affine(zs, slope, intercept);
    var mz := Mean(zs);
    MeanAffine(zs, slope, intercept);
    CrossDevWithAffine(zs, slope, intercept, mz, Mean(ys));
    SpreadIsPositive(zs, mz, i, j);
    Cancel(CrossDev(zs, ys, mz, Mean(ys)), CrossDev(zs, zs, mz, mz), slope);
  }

  lemma Cancel(x: real, y: real, c: real)
    requires y != 0.0 && x == c * y
    ensures x / y == c
  {
  }

  /** The prediction for day `x` written per day: `intercept0 + slope * x`,
      with the slope per day and the intercept at day zero. */
  function SlopePerDay(sc: Scaler, line: Line): real
    requires sc.scale != 0.0
  {
    line.coef / sc.scale
  }

  function InterceptAtDayZero(sc: Scaler, line: Line): real
    requires sc.scale != 0.0
  {
    line.intercept - line.coef * sc.mean / sc.scale
  }

  /** `model.predict(scaler.transform(X))` is, offset by offset, the
      per-day line: the price on day zero plus the slope per day times the
      offset. */
  lemma PredictionsPerDay(sc: Scaler, line: Line, xs: seq<int>)
    requires sc.scale != 0.0
    ensures |Predictions(sc, line, xs)| == |xs|
    ensures forall i :: 0 <= i < |xs| ==>
              Predictions(sc, line, xs)[i] == InterceptAtDayZero(sc, line) + SlopePerDay(sc, line) * xs[i] as real
  {
    forall i | 0 <= i < |xs|
      ensures Predictions(sc, line, xs)[i] == InterceptAtDayZero(sc, line) + SlopePerDay(sc, line) * xs[i] as real
    {
      PerDayForm(sc, line, xs[i] as real);
    }
  }

  /** The fitted model is a straight line in the day offset itself, with
      slope `SlopePerDay` and value `InterceptAtDayZero` at day zero. */
  lemma PerDayForm(sc: Scaler, line: Line, x: real)
    requires sc.scale != 0.0
    ensures At(line, Standardize(sc, x)) == InterceptAtDayZero(sc, line) + SlopePerDay(sc, line) * x
  {
    var m, s, c := sc.mean, sc.scale, line.coef;
    DivisionIsAffine(x, m, s);
    assert c * ((1.0 / s) * x + -m / s) == (c / s) * x - c * m / s;
  }

  // ---------------------------------------------------------------------
  // Exact recovery of a linear price trend

  /** Prices exactly on a line `a + b * day`, over at least two different
      days: whatever positive scale standardises the days, the fitted line,
      in standardised units, has slope `b * scale` and intercept
      `a + b * mean`. */
  lemma ExactLineFit(xs: seq<int>, ys: seq<real>, a: real, b: real, sc: Scaler, i: nat, j: nat)
    requires sc.scale > 0.0
    requires i < |xs| && j < |xs| && xs[i] != xs[j]
    requires |ys| == |xs| && forall k :: 0 <= k < |xs| ==> ys[k] == a + b * xs[k] as real
    ensures FitLine(Transform(sc, xs), ys) == Line(b * sc.scale, b * sc.mean + a)
  {
    var zs := Transform(sc, xs);
    ExactDataInStandardUnits(sc, xs, ys, a, b);
    StandardizeIsInjective(sc, xs[i] as real, xs[j] as real);
    assert zs[i] == Standardize(sc, xs[i] as real) && zs[j] == Standardize(sc, xs[j] as real);
    FitLineOfExactData(zs, ys, b * sc.scale, b * sc.mean + a, i, j);
  }

  lemma FitLineOfExactData(zs: seq<real>, ys: seq<real>, slope: real, intercept: real, i: nat, j: nat)
    requires i < |zs| && j < |zs| && zs[i] != zs[j]
    requires ys == Affine(zs, slope, intercept)
    ensures FitLine(zs, ys) == Line(slope, intercept)
  {
    FitLineExact(zs, slope, intercept, i, j);
  }

  /** Exact linear prices are an affine image of the standardised days. */
  lemma ExactDataInStandardUnits(sc: Scaler, xs: seq<int>, ys: seq<real>, a: real, b: real)
    requires sc.scale != 0.0
    requires |ys| == |xs| && forall k :: 0 <= k < |xs| ==> ys[k] == a + b * xs[k] as real
    ensures ys == Affine(Transform(sc, xs), b * sc.scale, b * sc.mean + a)
  {
    var zs := Transform(sc, xs);
    var c, d := b * sc.scale, b * sc.mean + a;
    forall n | 0 <= n < |xs|
      ensures ys[n] == Affine(zs, c, d)[n]
    {
      var u, z := xs[n] as real, zs[n];
      assert z == Standardize(sc, u);
      assert Affine(zs, c, d)[n] == c * z + d;
      Unstandardize(u, z, sc.mean, sc.scale, a, b);
    }
    assert |Affine(zs, c, d)| == |ys|;
  }

  lemma Unstandardize(u: real, z: real, m: real, s: real, a: real, b: real)
    requires s != 0.0 && z == (u - m) / s
    ensures (b * s) * z + (b * m + a) == a + b * u
  {
    assert s * z == u - m;
  }

  lemma StandardizeIsInjective(sc: Scaler, u: real, v: real)
    requires sc.scale != 0.0 && u != v
    ensures Standardize(sc, u) != Standardize(sc, v)
  {
    var m, s := sc.mean, sc.scale;
    assert s * ((u - m) / s) == u - m;
    assert s * ((v - m) / s) == v - m;
  }

  /** On exact linear prices over at least two different days the per-day
      slope is `b` and the value at day zero is `a`. */
  lemma ExactTrendRecovered(xs: seq<int>, ys: seq<real>, a: real, b: real, sc: Scaler, i: nat, j: nat)
    requires sc.scale > 0.0
    requires i < |xs| && j < |xs| && xs[i] != xs[j]
    requires |ys| == |xs| && forall k :: 0 <= k < |xs| ==> ys[k] == a + b * xs[k] as real
    ensures SlopePerDay(sc, FitLine(Transform(sc, xs), ys)) == b
    ensures InterceptAtDayZero(sc, FitLine(Transform(sc, xs), ys)) == a
  {
    ExactLineFit(xs, ys, a, b, sc, i, j);
    PerDayOfExact(sc, b, a);
  }

  lemma PerDayOfExact(sc: Scaler, b: real, a: real)
    requires sc.scale != 0.0
    ensures SlopePerDay(sc, Line(b * sc.scale, b * sc.mean + a)) == b
    ensures InterceptAtDayZero(sc, Line(b * sc.scale, b * sc.mean + a)) == a
  {
    CancelScale(b, sc.scale, sc.mean);
  }

  lemma CancelScale(b: real, s: real, m: real)
    requires s != 0.0
    ensures (b * s) / s == b
    ensures (b * s) * m / s == b * m
  {
    assert (b * s) * m == (b * m) * s;
  }

  /** The same for the scaler fitted to the days themselves. */
  lemma FittedTrendRecovered(xs: seq<int>, ys: seq<real>, a: real, b: real, sqrt: real -> real, i: nat, j: nat)
    requires ExactSqrt(sqrt)
    requires i < |xs| && j < |xs| && xs[i] != xs[j]
    requires |ys| == |xs| && forall k :: 0 <= k < |xs| ==> ys[k] == a + b * xs[k] as real
    ensures FitScaler(xs, sqrt).scale > 0.0
    ensures SlopePerDay(FitScaler(xs, sqrt), FitLine(Transform(FitScaler(xs, sqrt), xs), ys)) == b
    ensures InterceptAtDayZero(FitScaler(xs, sqrt), FitLine(Transform(FitScaler(xs, sqrt), xs), ys)) == a
  {
    FittedScaleIsPositive(xs, sqrt);
    ExactTrendRecovered(xs, ys, a, b, FitScaler(xs, sqrt), i, j);
  }

  /** On exact linear prices over at least two different days every
      forecast lies on the line: the prediction for day `x` is `a + b * x`. */
  lemma ExactForecasts(xs: seq<int>, ys: seq<real>, a: real, b: real, sc: Scaler, i: nat, j: nat, x: real)
    requires sc.scale > 0.0
    requires i < |xs| && j < |xs| && xs[i] != xs[j]
    requires |ys| == |xs| && forall k :: 0 <= k < |xs| ==> ys[k] == a + b * xs[k] as real
    ensures At(FitLine(Transform(sc, xs), ys), Standardize(sc, x)) == a + b * x
  {
    ExactTrendRecovered(xs, ys, a, b, sc, i, j);
    var line := FitLine(Transform(sc, xs), ys);
    PerDayForm(sc, line, x);
  }

  /** ... and in particular the model reproduces its training prices. */
  lemma ExactFitReproducesPrices(xs: seq<int>, ys: seq<real>, a: real, b: real, sc: Scaler, i: nat, j: nat)
    requires sc.scale > 0.0
    requires i < |xs| && j < |xs| && xs[i] != xs[j]
    requires |ys| == |xs| && forall k :: 0 <= k < |xs| ==> ys[k] == a + b * xs[k] as real
    ensures Predictions(sc, FitLine(Transform(sc, xs), ys), xs) == ys
  {
    ExactTrendRecovered(xs, ys, a, b, sc, i, j);
    PerDayLineReproduces(sc, FitLine(Transform(sc, xs), ys), xs, ys, a, b);
  }

  /** A line whose per-day form is `a + b * day` predicts exactly the prices
      that lie on it. */
  lemma PerDayLineReproduces(sc: Scaler, line: Line, xs: seq<int>, ys: seq<real>, a: real, b: real)
    requires sc.scale != 0.0
    requires SlopePerDay(sc, line) == b && InterceptAtDayZero(sc, line) == a
    requires |ys| == |xs| && forall k :: 0 <= k < |xs| ==> ys[k] == a + b * xs[k] as real
    ensures Predictions(sc, line, xs) == ys
  {
    forall n | 0 <= n < |xs|
      ensures Predictions(sc, line, xs)[n] == ys[n]
    {
      var x := xs[n] as real;
      assert Predictions(sc, line, xs)[n] == At(line, Standardize(sc, x));
      PerDayForm(sc, line, x);
      assert ys[n] == a + b * x;
    }
  }

  // ---------------------------------------------------------------------
  // The coefficients as reported

  /** The fitted line's own coefficients, which belong to the standardised
      offset: what the model reports as "slope" and "intercept". */
  function ReportedSlope(line: Line): real
  {
    line.coef
  }

  function ReportedIntercept(line: Line): real
  {
    line.intercept
  }

  /** Two days, 0 and 4, priced 0 and 4: the price rises by 1 a day and is 0
      on day 0, yet the reported slope is 2 (the rise per standard deviation
      of the offsets, which is 2 days) and the reported intercept is 2 (the
      price at the mean offset). The per-day forms give back 1 and 0. */
  lemma ReportedCoefficientsAreNotPerDay(sqrt: real -> real, days: seq<int>, prices: seq<real>)
    requires ExactSqrt(sqrt)
    requires days == [0, 4] && prices == [0.0, 4.0]
    ensures FitScaler(days, sqrt) == Scaler(2.0, 2.0)
    ensures FitLine(Transform(FitScaler(days, sqrt), days), prices) == Line(2.0, 2.0)
    ensures ReportedSlope(Line(2.0, 2.0)) == 2.0 && ReportedIntercept(Line(2.0, 2.0)) == 2.0
    ensures SlopePerDay(Scaler(2.0, 2.0), Line(2.0, 2.0)) == 1.0
    ensures InterceptAtDayZero(Scaler(2.0, 2.0), Line(2.0, 2.0)) == 0.0
  {
    ScalerOfZeroFour(sqrt, days);
    LineOfZeroFour(FitScaler(days, sqrt), days, prices);
    PerDayOfLineTwoTwo();
  }

  lemma PerDayOfLineTwoTwo()
    ensures SlopePerDay(Scaler(2.0, 2.0), Line(2.0, 2.0)) == 1.0
    ensures InterceptAtDayZero(Scaler(2.0, 2.0), Line(2.0, 2.0)) == 0.0
  {
  }

  lemma LineOfZeroFour(sc: Scaler, days: seq<int>, prices: seq<real>)
    requires sc == Scaler(2.0, 2.0) && days == [0, 4] && prices == [0.0, 4.0]
    ensures FitLine(Transform(sc, days), prices) == Line(2.0, 2.0)
  {
    assert forall k :: 0 <= k < |days| ==> prices[k] == 0.0 + 1.0 * days[k] as real;
    ExactLineFit(days, prices, 0.0, 1.0, sc, 0, 1);
  }

  lemma ScalerOfZeroFour(sqrt: real -> real, days: seq<int>)
    requires ExactSqrt(sqrt) && days == [0, 4]
    ensures FitScaler(days, sqrt) == Scaler(2.0, 2.0)
  {
    RealsOfZeroFour(days);
    VarianceOfZeroFour(Reals(days));
    SquareRootOfFour(sqrt(4.0));
  }

  lemma RealsOfZeroFour(days: seq<int>)
    requires days == [0, 4]
    ensures Reals(days) == [0.0, 4.0]
  {
  }

  lemma VarianceOfZeroFour(us: seq<real>)
    requires us == [0.0, 4.0]
    ensures Mean(us) == 2.0
    ensures Variance(us) == 4.0
  {
    var tail := us[1..];
    assert tail == [4.0] && tail[1..] == [];
    assert Sum(tail) == 4.0 + Sum(tail[1..]) == 4.0;
    assert Sum(us) == 0.0 + Sum(tail) == 4.0;
    assert CrossDev(tail, tail, 2.0, 2.0) == Dev(4.0, 2.0, 4.0, 2.0) + CrossDev(tail[1..], tail[1..], 2.0, 2.0) == 4.0;
    assert CrossDev(us, us, 2.0, 2.0) == Dev(0.0, 2.0, 0.0, 2.0) + CrossDev(tail, tail, 2.0, 2.0) == 8.0;
  }

  lemma SquareRootOfFour(s: real)
    requires s >= 0.0 && s * s == 4.0
    ensures s == 2.0
  {
    assert (s - 2.0) * (s + 2.0) == 0.0;
    FactorOfZeroProduct(s - 2.0, s + 2.0);
  }

  lemma FactorOfZeroProduct(x: real, y: real)
    requires y > 0.0 && x * y == 0.0
    ensures x == 0.0
  {
    if x > 0.0 {
      AbovePositiveProduct(x * y, x, y);
    } else if x < 0.0 {
      AbovePositiveProduct(-(x * y), -x, y);
    }
  }
}
