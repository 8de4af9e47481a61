/** The price-trend model of backend/modules/ml_predictor.py: an object
    that is prepared from a price table, trained once or more, and then
    queried for forecasts, evaluation metrics and coefficients. Every query
    fails until the model has been trained. */
module Predictor {
  import opened Wrappers
  import opened Stats
  import opened History
  import opened Regression

  /** Why an operation refused. */
  datatype Error =
    | NoData(productName: string)   // prepare_data: no row for the product
    | NotTrained                    // any query before a successful train
    | NoPriceHistory                // a forecast on a model never prepared
    | NotFitted                     // the scaler was reset by a refused refit
    | InvalidInput                  // scikit-learn rejects an empty or ragged X, Y

  /** One forecast: the price, its date (a day number), the confidence in
      percent and the horizon asked for. */
  datatype Prediction = Prediction(predictedPrice: real, predictedDate: int, confidence: Score, daysAhead: int)

  /** The metrics `get_model_evaluation` reports. */
  datatype Evaluation = Evaluation(mae: real, mse: real, rmse: real, r2: Score, accuracy: Score)

  datatype Trend = Increasing | Decreasing | Stable

  /** The coefficients `get_model_coefficients` reports. */
  datatype Coefficients = Coefficients(slope: real, intercept: real, changePerDay: real, trend: Trend)

  /** The trend label of a slope. */
  function TrendOf(slope: real): (t: Trend)
    ensures t == Increasing <==> slope > 0.0
    ensures t == Decreasing <==> slope < 0.0
    ensures t == Stable <==> slope == 0.0
  {
    if slope > 0.0 then Increasing else if slope < 0.0 then Decreasing else Stable
  }

  // ---------------------------------------------------------------------
  // The queries, as functions of the fitted state

  /** The forecast `days_ahead` days after the last observed date `dates`
      ends with: the feature is that date's offset from the first date. */
  function PredictAt(sc: Scaler, line: Line, accuracy: Score, dates: seq<int>, daysAhead: int): (p: Prediction)
    requires sc.scale != 0.0 && |dates| > 0
    ensures p.predictedDate == dates[|dates| - 1] + daysAhead
    ensures p.predictedPrice
         == InterceptAtDayZero(sc, line)
            + SlopePerDay(sc, line) * ((dates[|dates| - 1] - dates[0] + daysAhead) as real)
    ensures p.confidence == Percent(accuracy)
    ensures p.daysAhead == daysAhead
  {
    var futureDate := dates[|dates| - 1] + daysAhead;
    var futureDays := futureDate - dates[0];
    PerDayForm(sc, line, futureDays as real);
    Prediction(At(line, Standardize(sc, futureDays as real)), futureDate, Percent(accuracy), daysAhead)
  }

  /** The metrics of the fitted line on `xs`, `ys`: mean absolute error,
      mean squared error, its root, R² and R² in percent. */
  function Evaluate(sc: Scaler, line: Line, xs: seq<int>, ys: seq<real>, sqrt: real -> real): (e: Evaluation)
    requires sc.scale != 0.0 && |xs| == |ys| > 0 && ExactSqrt(sqrt)
    ensures e.mae >= 0.0 && e.mse >= 0.0
    ensures e.rmse >= 0.0 && e.rmse * e.rmse == e.mse
    ensures e.mae == 0.0 <==> forall i :: 0 <= i < |xs| ==> Predictions(sc, line, xs)[i] == ys[i]
    ensures Predictions(sc, line, xs) == ys ==> e.mse == 0.0
    ensures Predictions(sc, line, xs) != ys ==> e.mse > 0.0
    ensures e.r2.NaN? <==> |xs| < 2
    ensures e.r2.Finite? ==> e.r2.value <= 1.0
    ensures e.r2.Finite? ==> (e.r2.value == 1.0 <==> Predictions(sc, line, xs) == ys)
    ensures e.accuracy == Percent(e.r2)
  {
    var ps := Predictions(sc, line, xs);
    var mse := MeanSquaredError(ys, ps);
    Evaluation(MeanAbsoluteError(ys, ps), mse, sqrt(mse), R2(ys, ps), Percent(R2(ys, ps)))
  }

  /** The coefficients of the fitted model per day of offset: the price
      changes by `slope` a day and is `intercept` on the first day. */
  function CoefficientsOf(sc: Scaler, line: Line): (c: Coefficients)
    requires sc.scale != 0.0
    ensures forall x :: At(line, Standardize(sc, x)) == c.intercept + c.slope * x
    ensures c.changePerDay >= 0.0 && (c.changePerDay == c.slope || c.changePerDay == -c.slope)
    ensures c.trend == TrendOf(c.slope)
  {
    PerDayFormEverywhere(sc, line);
    var slope := SlopePerDay(sc, line);
    Coefficients(slope, InterceptAtDayZero(sc, line), Abs(slope), TrendOf(slope))
  }

  lemma PerDayFormEverywhere(sc: Scaler, line: Line)
    requires sc.scale != 0.0
    ensures forall x :: At(line, Standardize(sc, x)) == InterceptAtDayZero(sc, line) + SlopePerDay(sc, line) * x
  {
    forall x
      ensures At(line, Standardize(sc, x)) == InterceptAtDayZero(sc, line) + SlopePerDay(sc, line) * x
    {
      PerDayForm(sc, line, x);
    }
  }

  /** What `get_model_coefficients` reports as written: the coefficient and
      the intercept of the standardised feature, which describe the fitted
      line in standardised units. */
  function ReportedCoefficients(line: Line): (c: Coefficients)
    ensures forall z :: At(line, z) == c.intercept + c.slope * z
    ensures c.changePerDay >= 0.0 && (c.changePerDay == c.slope || c.changePerDay == -c.slope)
    ensures c.trend == TrendOf(c.slope)
  {
    Coefficients(ReportedSlope(line), ReportedIntercept(line), Abs(line.coef), TrendOf(line.coef))
  }

  // ---------------------------------------------------------------------
  // The model object

  class PricePredictionModel {
    /** The square root the scaler's standard deviation and the RMSE use. */
    const sqrt: real -> real
    /** The fitted StandardScaler; `None` until `train` has fitted it, and
        again after a refit that `X` made fail. */
    var scaler: Option<Scaler>
    /** The fitted LinearRegression; `None` until `train` has fitted it. */
    var line: Option<Line>
    var isTrained: bool
    var trainingAccuracy: Score
    /** The daily averages of the last `prepare_data`. */
    var priceHistory: Option<seq<DailyPrice>>
    /** Their dates, ascending. */
    var dates: Option<seq<int>>

    ghost predicate Valid()
      reads this
    {
      && ExactSqrt(sqrt)
      && (scaler.Some? ==> scaler.value.scale > 0.0)
      && (isTrained ==> line.Some?)
      && (dates.Some? ==> |dates.value| > 0 && StrictlyIncreasing(dates.value))
    }

    /** `PricePredictionModel()`: untrained, accuracy 0, no history. */
    constructor(sqrt: real -> real)
      requires ExactSqrt(sqrt)
      ensures Valid()
      ensures this.sqrt == sqrt
      ensures scaler == None && line == None
      ensures !isTrained && trainingAccuracy == Finite(0.0)
      ensures priceHistory == None && dates == None
    {
      this.sqrt := sqrt;
      scaler := None;
      line := None;
      isTrained := false;
      trainingAccuracy := Finite(0.0);
      priceHistory := None;
      dates := None;
    }

    /** `prepare_data(df, product_name)`: the feature and target columns of
      one product, also remembered as the price history. The fitted state
      is left as it was. */
    method PrepareData(df: seq<PriceRecord>, productName: string) returns (r: Result<Prepared, Error>)
      requires Valid()
      modifies this
      ensures Valid()
      ensures Prepare(df, productName).None? ==> r == Err(NoData(productName)) && unchanged(this)
      ensures Prepare(df, productName).Some? ==>
                && r == Ok(Prepare(df, productName).value)
                && priceHistory == Some(Series(r.value))
                && dates == Some(r.value.dates)
      ensures scaler == old(scaler) && line == old(line)
      ensures isTrained == old(isTrained) && trainingAccuracy == old(trainingAccuracy)
    {
      var prepared := Prepare(df, productName);
      if prepared.None? {
        return Err(NoData(productName));
      }
      priceHistory := Some(Series(prepared.value));
      dates := Some(prepared.value.dates);
      r := Ok(prepared.value);
    }

    /** `train(X, Y)`: fits the scaler to `xs`, then the line to the scaled
      `xs` and `ys`, and records the R² of the line on that same data.
      Refitting a StandardScaler first discards its fitted state, so an
      empty `xs` is refused with the scaler left unfitted and everything
      else as it was; a `ys` of another length is refused after the scaler
      has been refitted. */
    method Train(xs: seq<int>, ys: seq<real>) returns (r: Result<Score, Error>)
      requires Valid()
      modifies this
      ensures Valid()
      ensures xs == [] ==>
                && r == Err(InvalidInput) && scaler == None
                && line == old(line) && isTrained == old(isTrained)
                && trainingAccuracy == old(trainingAccuracy)
      ensures xs != [] ==> scaler == Some(FitScaler(xs, sqrt))
      ensures xs != [] && |ys| != |xs| ==>
                && r == Err(InvalidInput)
                && line == old(line) && isTrained == old(isTrained)
                && trainingAccuracy == old(trainingAccuracy)
      ensures xs != [] && |ys| == |xs| ==>
                && FitScaler(xs, sqrt).scale > 0.0
                && line == Some(FitLine(Transform(FitScaler(xs, sqrt), xs), ys))
                && isTrained
                && trainingAccuracy == R2(ys, Predictions(FitScaler(xs, sqrt), line.value, xs))
                && r == Ok(trainingAccuracy)
      ensures priceHistory == old(priceHistory) && dates == old(dates)
    {
      if xs == [] {
        scaler := None;
        return Err(InvalidInput);
      }
      FittedScaleIsPositive(xs, sqrt);
      var sc := FitScaler(xs, sqrt);
      scaler := Some(sc);
      if |ys| != |xs| {
        return Err(InvalidInput);
      }
      var fitted := FitLine(Transform(sc, xs), ys);
      line := Some(fitted);
      trainingAccuracy := R2(ys, Predictions(sc, fitted, xs));
      isTrained := true;
      r := Ok(trainingAccuracy);
    }

    /** `predict_future_price(days_ahead=30)` */
    method PredictFuturePrice(daysAhead: int := 30) returns (r: Result<Prediction, Error>)
      requires Valid()
      ensures !isTrained ==> r == Err(NotTrained)
      ensures isTrained && dates.None? ==> r == Err(NoPriceHistory)
      ensures isTrained && dates.Some? && scaler.None? ==> r == Err(NotFitted)
      ensures isTrained && dates.Some? && scaler.Some? ==>
                r == Ok(PredictAt(scaler.value, line.value, trainingAccuracy, dates.value, daysAhead))
    {
      if !isTrained {
        return Err(NotTrained);
      }
      if dates.None? {
        return Err(NoPriceHistory);
      }
      if scaler.None? {
        return Err(NotFitted);
      }
      r := Ok(PredictAt(scaler.value, line.value, trainingAccuracy, dates.value, daysAhead));
    }

    /** `predict_multiple_days(days_range=30)`: the forecasts 1, 2, ...,
      `daysRange` days ahead, none when `daysRange` is below 1; the first
      forecast's error, if any, is the result. */
    method PredictMultipleDays(daysRange: int := 30) returns (r: Result<seq<Prediction>, Error>)
      requires Valid()
      ensures !isTrained ==> r == Err(NotTrained)
      ensures isTrained && daysRange < 1 ==> r == Ok([])
      ensures isTrained && daysRange >= 1 && dates.None? ==> r == Err(NoPriceHistory)
      ensures isTrained && daysRange >= 1 && dates.Some? && scaler.None? ==> r == Err(NotFitted)
      ensures isTrained && dates.Some? && scaler.Some? ==>
                && r.Ok?
                && |r.value| == (if daysRange < 1 then 0 else daysRange)
                && forall i :: 0 <= i < |r.value| ==>
                     r.value[i] == PredictAt(scaler.value, line.value, trainingAccuracy, dates.value, i + 1)
    {
      if !isTrained {
        return Err(NotTrained);
      }
      var predictions: seq<Prediction> := [];
      var day := 1;
      while day <= daysRange
        invariant 1 <= day && (day == 1 || day <= daysRange + 1)
        invariant |predictions| == day - 1
        invariant day > 1 ==> dates.Some? && scaler.Some?
        invariant dates.Some? && scaler.Some? ==> forall i :: 0 <= i < |predictions| ==>
                    predictions[i] == PredictAt(scaler.value, line.value, trainingAccuracy, dates.value, i + 1)
      {
        var prediction := PredictFuturePrice(day);
        if prediction.Err? {
          return Err(prediction.error);
        }
        predictions := predictions + [prediction.value];
        day := day + 1;
      }
      r := Ok(predictions);
    }

    /** `get_model_evaluation(X, Y)` */
    method GetModelEvaluation(xs: seq<int>, ys: seq<real>) returns (r: Result<Evaluation, Error>)
      requires Valid()
      ensures !isTrained ==> r == Err(NotTrained)
      ensures isTrained && scaler.None? ==> r == Err(NotFitted)
      ensures isTrained && scaler.Some? && (xs == [] || |ys| != |xs|) ==> r == Err(InvalidInput)
      ensures isTrained && scaler.Some? && xs != [] && |ys| == |xs| ==>
                r == Ok(Evaluate(scaler.value, line.value, xs, ys, sqrt))
    {
      if !isTrained {
        return Err(NotTrained);
      }
      if scaler.None? {
        return Err(NotFitted);
      }
      if xs == [] || |ys| != |xs| {
        return Err(InvalidInput);
      }
      r := Ok(Evaluate(scaler.value, line.value, xs, ys, sqrt));
    }

    /** `get_model_coefficients()`: the fitted line's own coefficients,
      which belong to the standardised offset. With the scaler fitted they
      are the per-day coefficients in standardised units: the slope times
      the scale, and the price at the mean offset; the trend is the same. */
    method GetModelCoefficients() returns (r: Result<Coefficients, Error>)
      requires Valid()
      ensures !isTrained ==> r == Err(NotTrained)
      ensures isTrained ==> r == Ok(ReportedCoefficients(line.value))
      ensures isTrained && scaler.Some? ==>
                var perDay := CoefficientsOf(scaler.value, line.value);
                && r.value.slope == perDay.slope * scaler.value.scale
                && r.value.intercept == perDay.intercept + perDay.slope * scaler.value.mean
                && r.value.trend == perDay.trend
    {
      if !isTrained {
        return Err(NotTrained);
      }
      if scaler.Some? {
        ReportedVersusPerDay(scaler.value, line.value);
      }
      r := Ok(ReportedCoefficients(line.value));
    }
  }

  /** The non-file part of `train_model_from_csv`: a fresh model, prepared
      from the table, trained on the prepared columns and evaluated on them.
      It fails only when the product has no rows, and the evaluation then
      reports the training accuracy as its R². */
  method TrainModelFromRecords(df: seq<PriceRecord>, productName: string, sqrt: real -> real)
    returns (model: PricePredictionModel, r: Result<(Evaluation, Score), Error>)
    requires ExactSqrt(sqrt)
    ensures fresh(model) && model.Valid()
    ensures r.Err? <==> Prepare(df, productName).None?
    ensures r.Err? ==> r.error == NoData(productName)
    ensures r.Ok? ==> model.isTrained && r.value.0.r2 == r.value.1 == model.trainingAccuracy
  {
    model := new PricePredictionModel(sqrt);
    var prepared := model.PrepareData(df, productName);
    if prepared.Err? {
      return model, Err(prepared.error);
    }
    var p := prepared.value;
    var trained := model.Train(p.offsets, p.prices);
    var evaluation := model.GetModelEvaluation(p.offsets, p.prices);
    r := Ok((evaluation.value, trained.value));
  }

  // ---------------------------------------------------------------------
  // Properties of the queries

  /** Consecutive forecasts differ by the per-day slope. */
  lemma ForecastsChangeBySlopePerDay(sc: Scaler, line: Line, accuracy: Score, dates: seq<int>, d: int)
    requires sc.scale != 0.0 && |dates| > 0
    ensures PredictAt(sc, line, accuracy, dates, d + 1).predictedPrice
          - PredictAt(sc, line, accuracy, dates, d).predictedPrice
         == SlopePerDay(sc, line)
  {
    var x := (dates[|dates| - 1] - dates[0] + d) as real;
    assert (dates[|dates| - 1] - dates[0] + (d + 1)) as real == x + 1.0;
    StepAlongLine(InterceptAtDayZero(sc, line), SlopePerDay(sc, line), x);
  }

  lemma StepAlongLine(intercept: real, slope: real, x: real)
    ensures (intercept + slope * (x + 1.0)) - (intercept + slope * x) == slope
  {
  }

  /** The trend label says which way the forecasts move from one day to the
      next. */
  lemma TrendMatchesForecasts(sc: Scaler, line: Line, accuracy: Score, dates: seq<int>, d: int)
    requires sc.scale != 0.0 && |dates| > 0
    ensures var next := PredictAt(sc, line, accuracy, dates, d + 1).predictedPrice;
            var now := PredictAt(sc, line, accuracy, dates, d).predictedPrice;
            && (CoefficientsOf(sc, line).trend == Increasing <==> next > now)
            && (CoefficientsOf(sc, line).trend == Decreasing <==> next < now)
            && (CoefficientsOf(sc, line).trend == Stable <==> next == now)
  {
    ForecastsChangeBySlopePerDay(sc, line, accuracy, dates, d);
  }

  /** Dividing by a positive scale keeps the sign, so the trend label is the
      same whether read from the per-day slope or from the coefficient of
      the standardised feature. */
  lemma TrendIgnoresScale(sc: Scaler, line: Line)
    requires sc.scale > 0.0
    ensures CoefficientsOf(sc, line).trend == ReportedCoefficients(line).trend
  {
    SignOfQuotient(line.coef, sc.scale);
  }

  /** The reported coefficients are the per-day ones in standardised units:
      the slope per standard deviation of the offsets, and the price at the
      mean offset. */
  lemma ReportedVersusPerDay(sc: Scaler, line: Line)
    requires sc.scale > 0.0
    ensures ReportedCoefficients(line).slope == CoefficientsOf(sc, line).slope * sc.scale
    ensures ReportedCoefficients(line).intercept
         == CoefficientsOf(sc, line).intercept + CoefficientsOf(sc, line).slope * sc.mean
    ensures ReportedCoefficients(line).trend == CoefficientsOf(sc, line).trend
  {
    TrendIgnoresScale(sc, line);
    Rescale(line.coef, line.intercept, sc.mean, sc.scale);
  }

  lemma Rescale(c: real, i: real, m: real, s: real)
    requires s != 0.0
    ensures (c / s) * s == c
    ensures (i - c * m / s) + (c / s) * m == i
  {
    assert c * m / s == (c / s) * m;
  }

  lemma SignOfQuotient(x: real, s: real)
    requires s > 0.0
    ensures x > 0.0 <==> x / s > 0.0
    ensures x < 0.0 <==> x / s < 0.0
  {
    if x > 0.0 {
      assert x / s > 0.0;
    } else if x < 0.0 {
      assert x / s < 0.0;
    } else {
      assert x / s == 0.0;
    }
  }

  /** The stored price history is the product's daily averages: the
      prepared dates paired with the prepared prices are exactly the
      group-by-date means of the product's rows. */
  lemma PreparedMatchesHistory(df: seq<PriceRecord>, productName: string)
    requires Prepare(df, productName).Some?
    ensures Series(Prepare(df, productName).value) == DailyAverages(ForProduct(df, productName))
  {
  }

  /** A model trained on prices that lie exactly on `a + b * day`, over at
      least two different days, has per-day coefficients (`CoefficientsOf`)
      slope `b`, intercept `a` and trend `TrendOf(b)`, and forecasts along
      that line; the pair it reports (`ReportedCoefficients`) is the line on
      the standardised feature, slope `b * scale` and intercept
      `a + b * mean`. */
  lemma ExactHistoryForecasts(xs: seq<int>, ys: seq<real>, a: real, b: real, sc: Scaler,
                              accuracy: Score, dates: seq<int>, d: int, i: nat, j: nat)
    requires sc.scale > 0.0 && |dates| > 0
    requires i < |xs| && j < |xs| && xs[i] != xs[j]
    requires |ys| == |xs| && forall k :: 0 <= k < |xs| ==> ys[k] == a + b * xs[k] as real
    ensures CoefficientsOf(sc, FitLine(Transform(sc, xs), ys)).slope == b
    ensures CoefficientsOf(sc, FitLine(Transform(sc, xs), ys)).intercept == a
    ensures CoefficientsOf(sc, FitLine(Transform(sc, xs), ys)).trend == TrendOf(b)
    ensures PredictAt(sc, FitLine(Transform(sc, xs), ys), accuracy, dates, d).predictedPrice
         == a + b * ((dates[|dates| - 1] - dates[0] + d) as real)
    ensures ReportedCoefficients(FitLine(Transform(sc, xs), ys)).slope == b * sc.scale
    ensures ReportedCoefficients(FitLine(Transform(sc, xs), ys)).intercept == a + b * sc.mean
  {
    ExactLineFit(xs, ys, a, b, sc, i, j);
    ExactTrendRecovered(xs, ys, a, b, sc, i, j);
    PerDayQueries(sc, FitLine(Transform(sc, xs), ys), accuracy, dates, d, a, b);
  }

  lemma PerDayQueries(sc: Scaler, line: Line, accuracy: Score, dates: seq<int>, d: int, a: real, b: real)
    requires sc.scale != 0.0 && |dates| > 0
    requires SlopePerDay(sc, line) == b && InterceptAtDayZero(sc, line) == a
    ensures CoefficientsOf(sc, line).slope == b
    ensures CoefficientsOf(sc, line).intercept == a
    ensures CoefficientsOf(sc, line).trend == TrendOf(b)
    ensures PredictAt(sc, line, accuracy, dates, d).predictedPrice
         == a + b * ((dates[|dates| - 1] - dates[0] + d) as real)
  {
  }

  /** On such prices the model is exact on its training data: no error and
      an R² of 1. */
  lemma ExactHistoryEvaluation(xs: seq<int>, ys: seq<real>, a: real, b: real, sc: Scaler,
                               sqrt: real -> real, i: nat, j: nat)
    requires sc.scale > 0.0 && ExactSqrt(sqrt)
    requires i < |xs| && j < |xs| && xs[i] != xs[j]
    requires |ys| == |xs| && forall k :: 0 <= k < |xs| ==> ys[k] == a + b * xs[k] as real
    ensures var e := Evaluate(sc, FitLine(Transform(sc, xs), ys), xs, ys, sqrt);
            e.mae == 0.0 && e.mse == 0.0 && e.rmse == 0.0 && e.r2 == Finite(1.0)
  {
    ExactFitReproducesPrices(xs, ys, a, b, sc, i, j);
    ExactPredictionsEvaluation(sc, FitLine(Transform(sc, xs), ys), xs, ys, sqrt);
  }

  lemma ExactPredictionsEvaluation(sc: Scaler, line: Line, xs: seq<int>, ys: seq<real>, sqrt: real -> real)
    requires sc.scale != 0.0 && ExactSqrt(sqrt)
    requires |xs| == |ys| >= 2 && Predictions(sc, line, xs) == ys
    ensures var e := Evaluate(sc, line, xs, ys, sqrt);
            e.mae == 0.0 && e.mse == 0.0 && e.rmse == 0.0 && e.r2 == Finite(1.0)
  {
    var e := Evaluate(sc, line, xs, ys, sqrt);
    RootOfZero(e.rmse, e.mse);
  }

  lemma RootOfZero(root: real, square: real)
    requires root >= 0.0 && root * root == square && square == 0.0
    ensures root == 0.0
  {
    if root > 0.0 {
      AbovePositiveProduct(square, root, root);
    }
  }
}
