# Price comparison and price-trend prediction, modelled in Dafny

This project models the two computational parts of a price-comparison backend.

**The catalogue search and cheapest-offer resolver** (`backend/modules/scraper.py`).
- Three shops, Amazon, Flipkart and SnapDeal, each serve a fixed ten-row catalogue of products with a name, an integer price in rupees and a link.
- `scrape_all_websites` lower-cases the query and walks the three catalogues in order. Every product whose lower-cased name contains the query is written under its shop's key, so a later match overwrites an earlier one.
- `find_cheapest_option` picks the cheapest shop, taking the first one on ties. It reports what every shop would save against that shop.

**The price-trend model** (`backend/modules/ml_predictor.py`, class `PricePredictionModel`).
- `prepare_data` turns a price table into one average price per day of one product, ordered by date, with each date given as its offset in days from the first date.
- `train` standardises the offsets, fits a least-squares line and records its R² on the training data as the model's accuracy.
- The four queries all refuse until the model has been trained:
  - forecasts some days ahead;
  - a series of forecasts;
  - evaluation metrics;
  - the line's coefficients.

## Modules

| file | module | contents |
|---|---|---|
| `wrappers.dfy` | `Wrappers` | `Option` and `Result` |
| `text.dfy` | `Text` | ASCII lower-casing and substring search (Python's `str.lower` and `in`) |
| `catalogue.dfy` | `Catalogue` | the catalogues, the search as a method over an ordered dictionary, and the cheapest offer |
| `stats.dfy` | `Stats` | sums, means, deviations; MAE, MSE and R² as scikit-learn defines them |
| `history.dfy` | `History` | price records, the per-day grouping and `prepare_data`'s columns |
| `regression.dfy` | `Regression` | `StandardScaler`, the least-squares line, and what the fit recovers |
| `predictor.dfy` | `Predictor` | the class `PricePredictionModel` and its queries |

How the source's data is represented:
- A Python dictionary that is written key by key becomes a sequence of entries in insertion order. Assigning to a key replaces that key's entry in place, or appends a new one.
- Dates are integer day numbers and prices are `real`.
- scikit-learn's `ValueError` on an empty or ragged `X`, `Y` becomes the error `InvalidInput`. The `Exception("Model must be trained first!")` becomes `NotTrained`.
- `StandardScaler.fit` discards the previous fit before it checks `X`, so a refused refit leaves the scaler unfitted. Its `NotFittedError` becomes `NotFitted`, and the scaler field becomes `None`.
- Indexing `self.dates` while it is still `None` raises a `TypeError`; that becomes `NoPriceHistory`.
- The square root that `StandardScaler` and the RMSE take is a parameter of the model. The model requires it to be exact on non-negative reals.

## Model

| member | source | states |
|---|---|---|
| `Text.Lower` | backend/modules/scraper.py:136 | lower-casing keeps the length, turns each upper-case ASCII letter into its lower-case form (code point plus 32), keeps every other character, and leaves no upper-case letter |
| `Text.LowerIdempotent` | backend/modules/scraper.py:136-140 | lower-casing an already lower-cased string changes nothing |
| `Text.Occurs` | backend/modules/scraper.py:140 | a contained needle is no longer than the name, a prefix is contained, and every character of a contained needle is in the name |
| `Text.OccursIff` | backend/modules/scraper.py:140 | the substring test holds iff the needle sits at some position of the haystack |
| `Text.EmptyOccurs` | backend/modules/scraper.py:140 | the empty query is contained in every name |
| `Text.NotOccursWithout` | backend/modules/scraper.py:140 | a needle holding a character the haystack lacks does not occur in it |
| `Catalogue.AmazonSample` | backend/modules/scraper.py:40-60 | ten rows with positive prices, the Galaxy A15 at 16999 first and the Galaxy Watch 6 at 24999 last |
| `Catalogue.FlipkartSample` | backend/modules/scraper.py:63-83 | ten rows with positive prices, the Galaxy A15 at 16999 first and the Galaxy Watch 6 at 24999 last |
| `Catalogue.SnapdealSample` | backend/modules/scraper.py:86-106 | ten rows with positive prices, the Galaxy A15 at 16799 first and the Galaxy Watch 6 at 23999 last |
| `Catalogue.Put` | backend/modules/scraper.py:141-144 | a dictionary assignment appends an absent key, replaces a present key's entry in place and leaves the others alone |
| `Catalogue.LastMatch` | backend/modules/scraper.py:139-144 | the index kept for a shop is a matching row with no matching row after it, and there is none iff no row matches |
| `Catalogue.SiteResultShape` | backend/modules/scraper.py:139-160 | one shop contributes at most one entry, under its own key, and does so iff one of its rows matches |
| `Catalogue.MergeMatches` | backend/modules/scraper.py:139-144 | the loop over one catalogue appends exactly that shop's entry for its last matching row |
| `Catalogue.SearchCatalogues` | backend/modules/scraper.py:133-162 | searching three given catalogues yields the specification `SearchIn` |
| `Catalogue.ScrapeAllWebsites` | backend/modules/scraper.py:109-162 | the search over the three fixed catalogues yields the specification `Search` |
| `Catalogue.SearchKeys` | backend/modules/scraper.py:133-160 | the result's keys are distinct, belong to the three shops and keep the order Amazon, Flipkart, SnapDeal |
| `Catalogue.SearchHasSiteIff` | backend/modules/scraper.py:136-160 | a shop's key is present iff one of its catalogue names contains the lower-cased query |
| `Catalogue.SiteResultHasKey` | backend/modules/scraper.py:139-160 | one shop's loop creates a key iff it is that shop's and a row matches |
| `Catalogue.SearchEntryIsLastMatch` | backend/modules/scraper.py:139-160 | every result entry's price and link come from one row, the last matching row of its shop |
| `Catalogue.SearchIgnoresCase` | backend/modules/scraper.py:136 | two queries with equal lower-case forms give identical results |
| `Catalogue.EmptyQueryKeepsLastRows` | backend/modules/scraper.py:139-160 | the empty query yields all three shops with the last row of each catalogue |
| `Catalogue.SamsungGalaxyExample` | backend/modules/scraper.py:48 | "samsung galaxy" yields the Galaxy Watch 6 rows, which come after the A15 rows, and its cheapest offer |
| `Catalogue.NoRowMatches` | backend/modules/scraper.py:139-160 | a query containing a non-letter character that no long-enough name holds matches no row |
| `Catalogue.LacksDocumentedQuery` | backend/modules/scraper.py:119-124 | no row built from names that are short or in a known list matches "samsung galaxy a12" |
| `Catalogue.DocumentedQueryMatchesNothing` | backend/modules/scraper.py:119-124 | the documented query "Samsung Galaxy A12" yields an empty result and no cheapest offer |
| `Catalogue.CheapestIndex` | backend/modules/scraper.py:179 | the chosen entry's price is at most every price and strictly below every earlier entry's |
| `Catalogue.FindCheapestOption` | backend/modules/scraper.py:165-191 | gives nothing iff the input is empty; otherwise it returns a cheapest entry's site, price and link, the first on ties, and one non-negative saving `price - cheapest` per input key in input order, zero for the chosen site |
| `Stats.SumBounds` | backend/modules/ml_predictor.py:105 | supporting lemma for the regression proofs: a sum of n values lies between n times their lower and n times their upper bound |
| `Stats.MeanBounds` | backend/modules/ml_predictor.py:105 | supporting lemma for the regression proofs: a mean lies between any bounds of its values |
| `Stats.MeanAffine` | backend/modules/ml_predictor.py:150 | supporting lemma for the regression proofs: the mean of `c * x + d` is `c` times the mean plus `d` |
| `Stats.CrossDevWithAffine` | backend/modules/ml_predictor.py:155 | supporting lemma for the regression proofs: the co-deviation of values with an affine image of themselves is the slope times their spread |
| `Stats.SpreadIsPositive` | backend/modules/ml_predictor.py:150-155 | supporting lemma for the regression proofs: two different values give a positive spread |
| `Stats.MeanAbsoluteError` | backend/modules/ml_predictor.py:295 | MAE is non-negative and zero iff every prediction equals its target |
| `Stats.MeanSquaredError` | backend/modules/ml_predictor.py:296 | MSE is non-negative, zero when the predictions equal the targets and positive otherwise |
| `Stats.R2` | backend/modules/ml_predictor.py:166 | R² is undefined iff there are fewer than two samples, is at most 1, and is 1 iff the predictions equal the targets |
| `History.ForProduct` | backend/modules/ml_predictor.py:96 | the filter keeps every row of the named product as many times as the table holds it, and no other row |
| `History.OnDate` | backend/modules/ml_predictor.py:105 | a day's group keeps every row of that date as many times as the rows hold it, and no other row |
| `History.DistinctDates` | backend/modules/ml_predictor.py:105-108 | the grouped dates are strictly ascending and are exactly the dates some row has |
| `History.PricesOn` | backend/modules/ml_predictor.py:105 | a price is in a day's group iff some row of that day has it |
| `History.PricesOnIsDateColumn` | backend/modules/ml_predictor.py:105 | a day's group is the price column of that day's rows, repeated prices included |
| `History.RepeatedPricesCount` | backend/modules/ml_predictor.py:105 | one day priced 100, 100 and 70 averages to 90: a repeated price counts twice |
| `History.DailyAverages` | backend/modules/ml_predictor.py:105-108 | one entry per distinct date, in strictly ascending date order |
| `History.DailyAveragesSpec` | backend/modules/ml_predictor.py:105-108 | every entry's date has a row, every row's date has an entry, and each entry's price is the mean of that date's non-empty group of prices |
| `History.Prepare` | backend/modules/ml_predictor.py:96-126 | no columns iff no row has the product; otherwise equally long non-empty columns, ascending dates, offsets starting at 0 and ascending, each the date minus the first date |
| `History.PrepareSpec` | backend/modules/ml_predictor.py:105-124 | the prepared dates are exactly the product's dates, and each prepared price is the mean of the non-empty group of that date's prices |
| `History.DailyPriceWithinDayRange` | backend/modules/ml_predictor.py:105 | a daily price lies within any bounds of that day's prices |
| `History.SingleDayGivesOnePoint` | backend/modules/ml_predictor.py:105-113 | prices all of one day give one point at offset 0 |
| `Regression.FittedScaleIsPositive` | backend/modules/ml_predictor.py:150 | the fitted scale is positive, and it squares to the population variance of the offsets whenever that variance is not zero |
| `Regression.TransformRoundTrip` | backend/modules/ml_predictor.py:150 | the standardised column has the offsets' length, and scaling back gives every offset |
| `Regression.StandardizedMean` | backend/modules/ml_predictor.py:150 | standardised features have mean 0 |
| `Regression.TransformIsAffine` | backend/modules/ml_predictor.py:150 | standardising is an affine map of the features |
| `Regression.FitLineNormalEquations` | backend/modules/ml_predictor.py:155 | the fitted line passes through the mean point, and its coefficient times the feature's spread is the co-deviation with the price (zero for a constant feature) |
| `Regression.FitThroughMeans` | backend/modules/ml_predictor.py:155 | the fitted line passes through the mean feature and the mean price |
| `Regression.FitLineExact` | backend/modules/ml_predictor.py:155 | data that lie on a line with two different features are fitted by exactly that line |
| `Regression.PerDayForm` | backend/modules/ml_predictor.py:212-215 | a prediction on a standardised offset equals the price on day 0 plus the per-day slope times the offset |
| `Regression.PredictionsPerDay` | backend/modules/ml_predictor.py:159 | the predictions on the training offsets are one per offset, each the price on day 0 plus the per-day slope times the offset |
| `Regression.StandardizeIsInjective` | backend/modules/ml_predictor.py:212 | different offsets stay different after standardising |
| `Regression.ExactLineFit` | backend/modules/ml_predictor.py:150-155 | prices on `a + b * day`, over at least two different days, fit coefficient `b * scale` and intercept `a + b * mean` |
| `Regression.ExactTrendRecovered` | backend/modules/ml_predictor.py:316-319 | on such prices the per-day slope is `b` and the price on day 0 is `a` |
| `Regression.FittedTrendRecovered` | backend/modules/ml_predictor.py:150-155 | the same with the scaler fitted to the offsets themselves |
| `Regression.ExactForecasts` | backend/modules/ml_predictor.py:193-215 | on such prices every forecast lies on `a + b * day` |
| `Regression.ExactFitReproducesPrices` | backend/modules/ml_predictor.py:159 | on such prices the training predictions equal the prices |
| `Regression.ReportedCoefficientsAreNotPerDay` | backend/modules/ml_predictor.py:325-326 | offsets 0 and 4 with prices 0 and 4 give a reported slope and intercept of 2 and 2, while the per-day slope is 1 and the price on day 0 is 0 |
| `Predictor.TrendOf` | backend/modules/ml_predictor.py:329-334 | the trend is increasing iff the slope is positive, decreasing iff negative, stable iff zero |
| `Predictor.PredictAt` | backend/modules/ml_predictor.py:201-225 | the forecast is dated the last date plus the horizon; its price is the line at the last offset plus the horizon; its confidence is the accuracy in percent; the horizon is echoed |
| `Predictor.Evaluate` | backend/modules/ml_predictor.py:289-306 | MAE and MSE are non-negative; RMSE is the non-negative root of MSE; MAE is zero iff every prediction is exact; R² is undefined iff fewer than two samples, is at most 1 and is 1 iff exact; accuracy is R² in percent |
| `Predictor.CoefficientsOf` | backend/modules/ml_predictor.py:315-341 | every prediction equals intercept plus slope times the offset; the change per day is the slope's magnitude; the trend is the slope's label |
| `Predictor.ReportedCoefficients` | backend/modules/ml_predictor.py:325-341 | the reported slope and intercept describe the fitted line on the standardised offset; the change per day is the slope's magnitude; the trend is the slope's label |
| `Predictor.ReportedVersusPerDay` | backend/modules/ml_predictor.py:325-326 | the reported slope is the per-day slope times the scale, and the reported intercept is the price at the mean offset; the trend labels agree |
| `Predictor.PricePredictionModel.constructor` | backend/modules/ml_predictor.py:60-75 | a fresh model is untrained, has accuracy 0, no fitted scaler or line, no price history and no dates |
| `Predictor.PricePredictionModel.PrepareData` | backend/modules/ml_predictor.py:78-126 | fails with `NoData` and changes nothing when no row has the product; otherwise returns the prepared columns and stores their daily series and dates; never touches the training state |
| `Predictor.PricePredictionModel.Train` | backend/modules/ml_predictor.py:129-175 | refitting first discards the scaler's fit, so an empty `X` is refused with the scaler unfitted and the line, flag and accuracy kept; otherwise the scaler is refitted, a ragged `Y` is then refused keeping the old line and flag, and a matching `Y` fits the line, sets the flag and records the training R² |
| `Predictor.PricePredictionModel.PredictFuturePrice` | backend/modules/ml_predictor.py:178-225 | horizon 30 by default; `NotTrained` until trained; `NoPriceHistory` when no data was prepared; `NotFitted` when the scaler was left unfitted; otherwise the forecast of `PredictAt` for the stored dates |
| `Predictor.PricePredictionModel.PredictMultipleDays` | backend/modules/ml_predictor.py:228-247 | range 30 by default; `NotTrained` until trained; no forecasts for a range below 1; otherwise the first forecast's error, or exactly n forecasts, the i-th being i + 1 days ahead |
| `Predictor.PricePredictionModel.GetModelEvaluation` | backend/modules/ml_predictor.py:250-306 | `NotTrained` until trained; `NotFitted` when the scaler was left unfitted; `InvalidInput` on an empty or ragged `X`, `Y`; otherwise the metrics of `Evaluate` |
| `Predictor.PricePredictionModel.GetModelCoefficients` | backend/modules/ml_predictor.py:309-341 | `NotTrained` until trained; otherwise the line's own coefficients, `ReportedCoefficients`, which with a fitted scaler are the per-day slope times the scale and the price at the mean offset, with the same trend |
| `Predictor.TrainModelFromRecords` | backend/modules/ml_predictor.py:359-370 | prepare, train and evaluate fail only when the product has no rows, and the evaluation's R² is then the training accuracy |
| `Predictor.ForecastsChangeBySlopePerDay` | backend/modules/ml_predictor.py:193-215 | forecasts one day apart differ by the per-day slope |
| `Predictor.TrendMatchesForecasts` | backend/modules/ml_predictor.py:329-334 | the trend label says whether the next day's forecast is higher, lower or the same |
| `Predictor.TrendIgnoresScale` | backend/modules/ml_predictor.py:325-334 | the trend label is the same whether read from the standardised coefficient or from the per-day slope |
| `Predictor.PreparedMatchesHistory` | backend/modules/ml_predictor.py:105-124 | the stored series of prepared dates and prices is exactly the daily averages of the product's rows |
| `Predictor.ExactHistoryForecasts` | backend/modules/ml_predictor.py:201-334 | a model trained on prices on `a + b * day` over at least two different days has per-day coefficients (`CoefficientsOf`) slope `b`, intercept `a` and trend `TrendOf(b)`, forecasts on that line, and reports (`ReportedCoefficients`) slope `b * scale` and intercept `a + b * mean` |
| `Predictor.ExactHistoryEvaluation` | backend/modules/ml_predictor.py:295-298 | such a model has MAE, MSE and RMSE 0 and R² 1 on its training data |

## Left out

- Reading CSV files (`load_data_from_csv`, the file part of `train_model_from_csv`), the database, the HTTP layer in `backend/main.py`, the `__main__` demonstrations, and the unused real scraper. They are I/O. `TrainModelFromRecords` takes the table as a parameter.
- `Text.Lower` lower-cases ASCII letters only; Python's `str.lower` also folds other scripts. Every catalogue name and documented query is ASCII.
- Floating point: prices and metrics are exact reals, so the model does not capture rounding error. `round(..., 2)` and `round(..., 4)` in the returned dictionaries, the `:.2%` and `₹…` formatting, and the message strings are not modelled. The model returns the unrounded values.
- Dates are integer day numbers. `pd.to_datetime`, `timedelta` and `strftime("%Y-%m-%d")` are not modelled.
  - As written, `self.dates` holds numpy `datetime64` values, and `(future_date - first_date).days` is only defined for Python `datetime` objects.
  - The model follows the evident intent: the future date is the last date plus the horizon, and the feature is that date minus the first date.
- The square root is a parameter assumed exact. The model does not capture numpy's rounding of `sqrt`.
- `StandardScaler` treats a standard deviation below a small tolerance as zero (scale 1). The model uses exactly zero.
- `Regression.FitScaler`: the unit variance of the standardised features is not stated; only their zero mean is (`Regression.StandardizedMean`).
- `Train` returns the training accuracy, not the `status`/`message` dictionary.
- Non-finite input (NaN prices) is not modelled.

## Findings

| source | as written | input that shows it | evidently intended | confidence | as-written member | corrected member |
|---|---|---|---|---|---|---|
| backend/modules/ml_predictor.py:315-339 | `slope` is `coef_[0]` and `intercept` is `intercept_` of the line fitted to the *standardised* offsets, so they are per standard deviation of days and at the mean day | offsets 0 and 4 with prices 0 and 4: reported slope 2 and intercept 2, while the price rises 1 a day from 0 on day 0 | the slope per day (`coef_ / scale`) and the price on day 0 (`intercept_ - coef_ * mean / scale`), as the documented `Price = slope * days + intercept` says | high (not executed) | `Regression.ReportedCoefficientsAreNotPerDay` | `Predictor.CoefficientsOf` |

`Predictor.PricePredictionModel.GetModelCoefficients` returns the values as written (`Predictor.ReportedCoefficients`). Its contract and `Predictor.ReportedVersusPerDay` relate them to the corrected `Predictor.CoefficientsOf`, which the forecast properties use. The trend label is unaffected by this finding: dividing by a positive scale keeps the sign (`Predictor.TrendIgnoresScale`).
