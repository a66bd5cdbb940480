# Flight delay model, in Dafny

A model of the flight-delay scoring core: the `DelayModel` class (feature engineering,
class-balance weighting, decision threshold, artifact persistence) and the `/predict`
endpoint's validators and request handling. Each operation has a contract, and the properties
the code promises are proved as lemmas.

Modules, one per concern:

- `DateTimes` (datetimes.dfy): timestamps as `strptime` parses them. Python compares them field
  by field. `Seconds` counts elapsed seconds from 0001-01-01. `SecondsOrder` proves that the
  two orders agree, in both directions.
- `Derived` (derived.dfy): `_is_high_season`, `_get_period_day`, `_get_min_diff` and the delay
  label.
- `Text` (text.dfy): `str(n)` for the `MES_<n>` column names, with its inverse.
- `Encoding` (encoding.dfy): `_features`. First the categorical coercion of MES, OPERA and
  TIPOVUELO, then the one-hot expansion in `concat` order, then the projection onto
  `TOP_FEATURES`.
- `Decisions` (decisions.dfy): `scale_pos_weight` and the 0.5 threshold.
- `Pipeline` (pipeline.dfy): the pandas frame as the class `Frame`, the `model.pkl` file as the
  class `ArtifactStore`, and the class `DelayModel` with `Features`, `Preprocess`, `Fit` and
  `Predict`.
- `Api` (api.dfy): `validate_TIPOVUELO`, `validate_MES`, `validate_OPERA`, parsing of the
  request flight by flight, the column split and `post_predict`.

The settings (`THRESHOLD`, `OPERATORS`, `FLIGHT_TYPES`, `TOP_FEATURES`) form a `Config` value
given to the `DelayModel` constructor. XGBoost is abstract. A `Classifier` value records the
fixed hyperparameters, the class weight and the data it was fitted on. Scoring is a function
`(Classifier, seq<int>) -> real` passed in by the caller. `fit` mutates the object's
classifier and then dumps it to the artifact store. How the dump ends is a parameter: it
succeeds, fails before the file is opened (the old artifact stays), or fails after opening
the file for writing (the artifact is left truncated). `predict` reads the artifact store and
never the object's own classifier.

Three behaviours of the code are easy to misread, and the model keeps them as written:

- High season. Each window's upper bound is `datetime.strptime('31-Dec', '%d-%b')` with the
  year replaced, which is midnight at the start of the last day
  (challenge/model_test.py:99,101,103,105). So only the first instant of Dec 31, Mar 3, Jul 31
  and Sep 30 is in season; Dec 31 00:00:01 is not. `HighSeasonByCalendar` and
  `HighSeasonBoundaries` state this.
- Period of day. Every comparison is strict (challenge/model_test.py:142-150). So 05:00:00,
  every second of 11:59, 12:00:00, every second of 18:59, 19:00:00, every second of 23:59,
  00:00:00 and every second of 04:59 get no period (`None`). `PeriodBySecondOfDay` lists these
  gaps exactly.
- Scores. `predict` thresholds the output of `model.predict` at 0.5
  (challenge/model_test.py:87-88). The model thresholds an abstract score per row.

## Model

| member | source | states |
|---|---|---|
| `Derived.IsHighSeason` | challenge/model_test.py:96-113 | the flag is always 0 or 1 |
| `Derived.HighSeasonByCalendar` | challenge/model_test.py:98-113 | flag is 1 iff the date is from Dec 15 to Dec 30, or Dec 31 at midnight; any date in Jan or Feb, Mar 1-2, or Mar 3 at midnight; Jul 15-30 or Jul 31 at midnight; Sep 11-29 or Sep 30 at midnight |
| `Derived.HighSeasonAsInterval` | challenge/model_test.py:107-110 | flag is 1 iff the instant lies, in elapsed seconds, inside one of the four closed intervals between window-start and window-end midnights of its own year |
| `Derived.HighSeasonBoundaries` | challenge/model_test.py:98-101 | Dec 15 00:00:00 and Dec 31 00:00:00 are in; Dec 14 23:59:59, Dec 31 00:00:01, Dec 31 10:00 and Mar 4 00:00 are out |
| `Derived.PeriodOfDay` | challenge/model_test.py:132-150 | on a valid timestamp, the period is the bucket of its second of the day under the reference interval table `PeriodOfSecond` (the field-wise time comparisons agree with comparisons of seconds since midnight) |
| `Derived.PeriodBySecondOfDay` | challenge/model_test.py:132-150 | 'mañana' iff 05:00:00 < t < 11:59:00; 'tarde' iff 12:00:00 < t < 18:59:00; 'noche' iff 19:00:00 < t < 23:59:00 or 00:00:00 < t < 04:59:00; no period exactly on the listed boundary seconds and minutes |
| `Derived.PeriodBoundaries` | challenge/model_test.py:142-150 | 05:00:00, 11:59:30, 12:00:00, 23:59:00 and 00:00:00 get no period; 05:00:01 is morning |
| `DateTimes.SecondsOrder` | challenge/model_test.py:121-123 | for valid timestamps, elapsed seconds are smaller iff the datetime compares smaller, and equal iff the timestamps are equal |
| `DateTimes.BeforeIsEarlier` | challenge/model_test.py:121-123 | a timestamp that compares earlier has fewer elapsed seconds |
| `Derived.MinDiff` | challenge/model_test.py:115-124 | the minute gap is negative iff Fecha-O is earlier than Fecha-I, zero iff they are equal, positive iff Fecha-O is later |
| `Derived.MinDiffAntisymmetric` | challenge/model_test.py:123 | swapping the two timestamps negates the gap |
| `Derived.DelayLabel` | challenge/model_test.py:45 | the label is always 0 or 1 |
| `Derived.DelayLabelMeaning` | challenge/model_test.py:45 | label 1 iff the departure is more than 60·THRESHOLD seconds after schedule; with THRESHOLD ≥ 0, an early or on-time flight gets 0 |
| `Derived.DelayLabelAtThreshold` | challenge/model_test.py:45 | a gap exactly equal to the threshold gets label 0 |
| `Text.ParseDecimalInverts` | challenge/model_test.py:168 | reading back the decimal digits of `str(n)` gives `n` |
| `Text.DecimalInjective` | challenge/model_test.py:168 | distinct months give distinct `MES_` column names |
| `Encoding.CategorizedRows` | challenge/model_test.py:159-161 | the three coercions keep the row count; each row has only MES, OPERA and TIPOVUELO coerced, to missing when outside their universe |
| `Encoding.ExpandAligned` | challenge/model_test.py:164-171 | each generated dummy column is 1 iff it is the column of one of the row's own operator, flight type or month |
| `Encoding.ProjectRow` | challenge/model_test.py:164-174 | a feature row has exactly the TOP_FEATURES columns, in that order, each 1 iff it names one of the row's values |
| `Encoding.EncodeFrame` | challenge/model_test.py:164-174 | succeeds iff every TOP_FEATURES name is a generated column, else a KeyError naming a missing one; on success, one feature row per input row, in order |
| `Encoding.FeaturesOf` | challenge/model_test.py:158-174 | repeated operators raise first, then repeated flight types, then a retained feature that is not a generated column; succeeds iff none of these; on success one row per input row, and entry k of row i is 1 iff TOP_FEATURES[k] names the coerced operator, flight type or month of row i |
| `Encoding.AtMostOnePerFamily` | challenge/model_test.py:163-174 | two set indicators of the same family (OPERA_, TIPOVUELO_ or MES_) name the same column |
| `Encoding.UnknownCategoryAllZero` | challenge/model_test.py:159-174 | a raw value outside its universe gives 0 in every retained column of its family |
| `Encoding.KnownCategorySet` | challenge/model_test.py:159-174 | a raw value inside its universe gives 1 in the retained column named after it |
| `Pipeline.StampError` | challenge/model_test.py:42-44 | there is no error iff every row's timestamp is present and readable; otherwise the error names the column and says missing or malformed |
| `Pipeline.PreprocessOf` | challenge/model_test.py:27-49 | succeeds iff the features succeed and either no target is given, or the frame has rows, every timestamp is readable and the target is `delay`; the features' error comes first; a training call on an empty frame fails at the row-wise apply; a successful result carries exactly the features, and is a training pair iff a target is given |
| `Pipeline.PreprocessShape` | challenge/model_test.py:37-49 | one feature row per input row; the result is a training pair iff a non-empty target is given; in training mode, one label per row; serving mode returns the features or their error |
| `Pipeline.PreprocessLabels` | challenge/model_test.py:42-46 | in a training result, every row has both timestamps, and label i is 1 iff row i's minute gap exceeds THRESHOLD |
| `Pipeline.PreprocessSameFeatures` | challenge/model_test.py:37-49 | the features of a training call equal those of a serving call on the same rows |
| `Pipeline.DelayModel.constructor` | challenge/model_test.py:23-25 | a new model holds an untrained classifier with random_state 1 and learning_rate 0.01 |
| `Pipeline.DelayModel.Features` | challenge/model_test.py:152-176 | the caller's frame has its three category columns coerced, up to the first duplicate-category failure; the result is `FeaturesOf` of the original rows |
| `Pipeline.DelayModel.Preprocess` | challenge/model_test.py:27-49 | the result is `PreprocessOf` of the original rows; the frame gains period_day (the period names) and high_season once every Fecha-I is readable, and min_diff and delay once the frame has rows and every Fecha-O is readable too; other columns are left unchanged |
| `Decisions.CountIsMultiplicity` | challenge/model_test.py:61-62 | the label count is the label's multiplicity in the target |
| `Decisions.ScalePosWeight` | challenge/model_test.py:61-65 | a weight exists iff there is at least one positive label; it is non-negative and weight × label_1 = label_0 |
| `Decisions.ScalePosWeightOrderFree` | challenge/model_test.py:61-64 | reordering the labels does not change the weight |
| `Decisions.ScalePosWeightOfCounts` | challenge/model_test.py:61-64 | n0 negatives and n1 > 0 positives give n0 / n1 (80 and 20 give 4); no positives gives the division error |
| `Pipeline.DelayModel.Fit` | challenge/model_test.py:51-74 | with no positive label, an error and nothing changes; otherwise the weight and training data are recorded in the classifier, and the artifact becomes the classifier after a successful dump, stays as it was after a dump that failed before opening the file, and is left truncated after one that failed after opening it |
| `Decisions.Decide` | challenge/model_test.py:88 | same length as the scores; element i is 1 iff score i > 0.5, else 0 |
| `Decisions.DecideSplits` | challenge/model_test.py:88 | deciding a concatenated batch is concatenating the decisions |
| `Decisions.DecideMonotone` | challenge/model_test.py:88 | a pointwise higher score never gives a lower label |
| `Decisions.DecideBoundary` | challenge/model_test.py:88 | 0.5 gives 0 and 0.5000001 gives 1 |
| `Pipeline.DelayModel.Predict` | challenge/model_test.py:84-88 | fails with a missing-artifact error iff no artifact was ever written, with a corrupt-artifact error iff the last dump left it truncated; otherwise one label per feature row, in order, 1 iff the saved classifier scores the row above 0.5 |
| `Pipeline.PredictTwice` | challenge/model_test.py:84-88 | two predictions with the same input and an unchanged artifact agree |
| `Api.ValidateTipoVuelo` | challenge/api.py:24-28 | accepts iff the value is a configured flight type, and then returns it unchanged; otherwise rejects naming the value |
| `Api.ValidateMes` | challenge/api.py:31-35 | accepts iff 1 ≤ MES ≤ 12 (so 13 is rejected), returning the value unchanged |
| `Api.ValidateOpera` | challenge/api.py:38-42 | accepts iff the value is a configured operator, and then returns it unchanged; otherwise rejects naming the value |
| `Api.ValidateFlight` | challenge/api.py:18-42 | a flight passes iff all three fields are valid, and passes unchanged; a bad TIPOVUELO is reported first, then a bad MES, then a bad OPERA |
| `Api.ValidateRequest` | challenge/api.py:46-47 | the request passes iff every flight passes, and then unchanged; otherwise the error is that of the first rejected flight |
| `Api.Columns` | challenge/api.py:66-68 | each list has one entry per flight, and entry i is the field of flight i |
| `Api.RequestRows` | challenge/api.py:71-72 | one row per list entry; row i holds entry i of the MES, OPERA and TIPOVUELO lists and no timestamps |
| `Api.ColumnsRoundTrip` | challenge/api.py:66-72 | each of the three columns has one entry per flight, and row i of the rebuilt frame is flight i |
| `Api.ValidatedFlightEncoding` | challenge/api.py:18-42 | when the endpoint's lists are contained in the model's, a validated flight passes the coercion unchanged, and its feature row sets exactly the retained columns named after its operator, flight type and month |
| `Api.ServeOf` | challenge/api.py:62-79 | succeeds iff the request's features succeed and a classifier is pickled in the artifact; otherwise the features' error, then the missing- or corrupt-artifact error; on success one prediction per flight |
| `Api.ServeRowByRow` | challenge/api.py:62-79 | a successful response has one prediction per flight, in request order; prediction i depends on flight i only |
| `Api.PostPredict` | challenge/api.py:62-79 | the response is the features of the request's frame, thresholded over the saved artifact's scores, or the first error met |

## Left out

- Parsing of timestamp strings by `strptime` is not modelled. A timestamp is a parsed record. An unreadable string is a record that fails `DateTimes.Valid`. The format has no microseconds.
- XGBoost training and scoring are foreign code. They are represented by the `Classifier` record and the caller's score function. A failure inside XGBoost's own `fit` is not modelled.
- `joblib.dump`/`joblib.load`, logging, and the YAML settings file are I/O. The artifact is the `ArtifactStore` field, the outcome of a save is a parameter, and the settings are a `Config` value. A truncated artifact is one value, whatever bytes the failed dump left.
- FastAPI routing, the `/health` endpoint, pydantic's type coercion of request fields, and the mapping of exceptions to HTTP 400/500 are framework glue and are not modelled.
- Pipeline.DelayModel.Preprocess: a training-mode target other than `"delay"` is an `UnsupportedTarget` error. pandas would instead return that column (for example `high_season`), which the model does not represent.
- Pipeline.DelayModel.Preprocess: a missing timestamp is per row (`None`), not a missing column. For a frame with no rows and no Fecha-I column, pandas raises KeyError before adding period_day; the model adds the empty period_day and high_season columns and then reports `EmptyFrameApply`. KeyError and TypeError for absent values are merged into `MissingTimestamp`.
- Api: challenge/api.py loads its own settings file and builds its model from `challenge.model`; challenge/model.py is not part of this model. The endpoint's lists are `ApiSettings`, separate from the model's `Config`, and `Api.PostPredict` runs the modelled `DelayModel`.
- Floating point: minute gaps, scores, the threshold and `scale_pos_weight` are exact reals. pandas' boolean dummy columns are the integers 0 and 1.
- Concurrent `fit` and `predict` on the same artifact are not modelled.
