/**
 * `DelayModel`: preprocessing of a flight frame, training (class weight and persistence)
 * and prediction (load and threshold).
 */
module Pipeline {

  import opened Wrappers
  import opened Errors
  import opened DateTimes
  import opened Derived
  import opened Encoding
  import opened Decisions

  // ---------------------------------------------------------------- the frame

  /**
   * A pandas DataFrame of flights: the raw rows, and the four columns that training-mode
   * preprocessing adds (absent until then).
   */
  class Frame {
    var rows: seq<Flight>
    var periodDay: Option<seq<Option<string>>>
    var highSeason: Option<seq<int>>
    var minDiff: Option<seq<real>>
    var delay: Option<seq<int>>

    /** Every column present has one entry per row. */
    ghost predicate Valid()
      reads this
    {
      (periodDay.Some? ==> |periodDay.value| == |rows|) &&
      (highSeason.Some? ==> |highSeason.value| == |rows|) &&
      (minDiff.Some? ==> |minDiff.value| == |rows|) &&
      (delay.Some? ==> |delay.value| == |rows|)
    }

    constructor (rows: seq<Flight>)
      ensures Valid() && this.rows == rows
      ensures periodDay == None && highSeason == None && minDiff == None && delay == None
    {
      this.rows := rows;
      periodDay, highSeason, minDiff, delay := None, None, None, None;
    }
  }

  // ---------------------------------------------------------------- timestamps of a frame

  datatype StampColumn = FechaI | FechaO

  function ColumnName(col: StampColumn): string
  {
    match col
    case FechaI => "Fecha-I"
    case FechaO => "Fecha-O"
  }

  function Stamp(f: Flight, col: StampColumn): Option<DateTime>
  {
    match col
    case FechaI => f.fechaI
    case FechaO => f.fechaO
  }

  /** The row's timestamp is present and strptime can read it. */
  predicate StampOk(f: Flight, col: StampColumn)
  {
    Stamp(f, col).Some? && Valid(Stamp(f, col).value)
  }

  /** The error `apply` raises at the first row whose timestamp is absent or unreadable. */
  function StampError(rows: seq<Flight>, col: StampColumn): (r: Option<Error>)
    ensures r.None? <==> forall i :: 0 <= i < |rows| ==> StampOk(rows[i], col)
    ensures r.Some? ==> r.value == MissingTimestamp(ColumnName(col)) || r.value == MalformedTimestamp(ColumnName(col))
  {
    if rows == [] then None
    else if Stamp(rows[0], col).None? then Some(MissingTimestamp(ColumnName(col)))
    else if !Valid(Stamp(rows[0], col).value) then Some(MalformedTimestamp(ColumnName(col)))
    else
      var rest := StampError(rows[1..], col);
      assert rest.None? ==> forall i :: 0 <= i < |rows| ==> StampOk(rows[i], col) by {
        if rest.None? {
          forall i | 0 <= i < |rows| ensures StampOk(rows[i], col) {
            if i > 0 { assert rows[i] == rows[1..][i - 1]; }
          }
        }
      }
      rest
  }

  /** The `period_day` column: 'mañana', 'tarde', 'noche' or `None`, row by row. */
  function PeriodColumn(rows: seq<Flight>): (r: seq<Option<string>>)
    requires forall i :: 0 <= i < |rows| ==> StampOk(rows[i], FechaI)
    ensures |r| == |rows|
  {
    seq(|rows|, i requires 0 <= i < |rows| && StampOk(rows[i], FechaI) => PeriodCell(PeriodOfDay(rows[i].fechaI.value)))
  }

  function HighSeasonColumn(rows: seq<Flight>): (r: seq<int>)
    requires forall i :: 0 <= i < |rows| ==> StampOk(rows[i], FechaI)
    ensures |r| == |rows|
  {
    seq(|rows|, i requires 0 <= i < |rows| && StampOk(rows[i], FechaI) => IsHighSeason(rows[i].fechaI.value))
  }

  function MinDiffColumn(rows: seq<Flight>): (r: seq<real>)
    requires forall i :: 0 <= i < |rows| ==> StampOk(rows[i], FechaI) && StampOk(rows[i], FechaO)
    ensures |r| == |rows|
  {
    seq(|rows|, i requires 0 <= i < |rows| && StampOk(rows[i], FechaI) && StampOk(rows[i], FechaO) =>
      MinDiff(rows[i].fechaI.value, rows[i].fechaO.value))
  }

  /** `np.where(min_diff > THRESHOLD, 1, 0)`. */
  function DelayColumn(threshold: real, minDiffs: seq<real>): (r: seq<int>)
    ensures |r| == |minDiffs|
  {
    seq(|minDiffs|, i requires 0 <= i < |minDiffs| => DelayLabel(minDiffs[i], threshold))
  }

  // ---------------------------------------------------------------- preprocessing as a value

  /** What `preprocess` returns: the features alone, or the features with the target column. */
  datatype Preprocessed = Serving(features: seq<seq<int>>) | Training(features: seq<seq<int>>, target: seq<int>)

  /** `if target_column:` — absent or empty means serving mode. */
  predicate TrainingMode(target: Option<string>)
  {
    target.Some? && target.value != ""
  }

  /** The rows as `_features` leaves them: the coercion stops at the first column whose categories repeat. */
  function CoercedRows(c: Config, rows: seq<Flight>): (r: seq<Flight>)
    ensures |r| == |rows|
  {
    if !Unique(c.operators) then WithMonths(rows)
    else if !Unique(c.flightTypes) then WithOperators(c, WithMonths(rows))
    else WithFlightTypes(c, WithOperators(c, WithMonths(rows)))
  }

  /** The derived columns can be computed: the features succeeded, training mode, every Fecha-I readable. */
  predicate ReachesPeriodDay(c: Config, rows: seq<Flight>, target: Option<string>)
  {
    FeaturesOf(c, rows).Ok? && TrainingMode(target) && StampError(rows, FechaI).None?
  }

  /** The row-wise `apply` behind min_diff needs at least one row, and every Fecha-O readable. */
  predicate ReachesMinDiff(c: Config, rows: seq<Flight>, target: Option<string>)
  {
    ReachesPeriodDay(c, rows, target) && |rows| > 0 && StampError(rows, FechaO).None?
  }

  /** `preprocess(data, target_column)` as a value of the input rows. */
  function PreprocessOf(c: Config, rows: seq<Flight>, target: Option<string>): (r: Result<Preprocessed, Error>)
    ensures r.Ok? <==>
      FeaturesOf(c, rows).Ok? && (!TrainingMode(target) || (ReachesMinDiff(c, rows, target) && target.value == "delay"))
    ensures FeaturesOf(c, rows).Err? ==> r == Err(FeaturesOf(c, rows).error)
    ensures ReachesPeriodDay(c, rows, target) && |rows| == 0 ==> r == Err(EmptyFrameApply("min_diff"))
    ensures ReachesMinDiff(c, rows, target) && target.value != "delay" ==> r == Err(UnsupportedTarget(target.value))
    ensures r.Ok? ==> r.value.features == FeaturesOf(c, rows).value && (r.value.Training? <==> TrainingMode(target))
  {
    match FeaturesOf(c, rows)
    case Err(e) => Err(e)
    case Ok(features) =>
      if !TrainingMode(target) then Ok(Serving(features))
      else if StampError(rows, FechaI).Some? then Err(StampError(rows, FechaI).value)
      else if |rows| == 0 then Err(EmptyFrameApply("min_diff"))
      else if StampError(rows, FechaO).Some? then Err(StampError(rows, FechaO).value)
      else if target.value != "delay" then Err(UnsupportedTarget(target.value))
      else Ok(Training(features, DelayColumn(c.threshold, MinDiffColumn(rows))))
  }

  /**
   * Every input row yields one feature row and, in training mode, one label; serving mode
   * returns the features alone.
   */
  lemma PreprocessShape(c: Config, rows: seq<Flight>, target: Option<string>)
    ensures PreprocessOf(c, rows, target).Ok? ==> |PreprocessOf(c, rows, target).value.features| == |rows|
    ensures PreprocessOf(c, rows, target).Ok? ==>
      (PreprocessOf(c, rows, target).value.Training? <==> TrainingMode(target))
    ensures PreprocessOf(c, rows, target).Ok? && TrainingMode(target) ==>
      |PreprocessOf(c, rows, target).value.target| == |rows|
    ensures !TrainingMode(target) ==>
      PreprocessOf(c, rows, target) == (if FeaturesOf(c, rows).Ok? then Ok(Serving(FeaturesOf(c, rows).value)) else Err(FeaturesOf(c, rows).error))
  {
  }

  /** Label i is 1 exactly when row i left more than the threshold after its schedule. */
  lemma PreprocessLabels(c: Config, rows: seq<Flight>, target: Option<string>, i: int)
    requires PreprocessOf(c, rows, target).Ok? && TrainingMode(target) && 0 <= i < |rows|
    ensures StampOk(rows[i], FechaI) && StampOk(rows[i], FechaO)
    ensures PreprocessOf(c, rows, target).value.target[i] == 1 <==>
      MinDiff(rows[i].fechaI.value, rows[i].fechaO.value) > c.threshold
  {
  }

  /** The features are the same in both modes: training never changes the encoding. */
  lemma PreprocessSameFeatures(c: Config, rows: seq<Flight>, target: Option<string>)
    requires PreprocessOf(c, rows, target).Ok?
    ensures PreprocessOf(c, rows, None).Ok?
    ensures PreprocessOf(c, rows, target).value.features == PreprocessOf(c, rows, None).value.features
  {
  }

  // ---------------------------------------------------------------- the classifier and its artifact

  datatype TrainingSet = TrainingSet(features: seq<seq<int>>, labels: seq<int>)

  /**
   * The gradient-boosted classifier, abstracted: its fixed hyperparameters, the class weight
   * set before training, and the data it was fitted on (with a fixed seed, what it learns is a
   * function of these).
   */
  datatype Classifier = Classifier(
    randomState: int,
    learningRate: real,
    scalePosWeight: Option<real>,
    fittedOn: Option<TrainingSet>)

  /** `xgb.XGBClassifier(random_state=1, learning_rate=0.01)`, untrained. */
  function Untrained(): Classifier
  {
    Classifier(1, 0.01, None, None)
  }

  /** What `model.pkl` holds: nothing yet, the remains of a dump that failed mid-write, or a classifier. */
  datatype Artifact = NoFile | Truncated | Pickled(classifier: Classifier)

  /**
   * How `joblib.dump` ends: the file written, an error before the file was opened (the old
   * artifact survives), or an error after opening for writing truncated it.
   */
  datatype SaveOutcome = Saved | FailedBeforeWrite | FailedAfterTruncate

  /** The durable `model.pkl`, shared by every DelayModel that uses it. */
  class ArtifactStore {
    var saved: Artifact

    constructor ()
      ensures saved == NoFile
    {
      saved := NoFile;
    }
  }

  /** The classifier's score for each feature row, in order. */
  function Scores(m: Classifier, features: seq<seq<int>>, score: (Classifier, seq<int>) -> real): (r: seq<real>)
    ensures |r| == |features|
    ensures forall i :: 0 <= i < |features| ==> r[i] == score(m, features[i])
  {
    seq(|features|, i requires 0 <= i < |features| => score(m, features[i]))
  }

  // ---------------------------------------------------------------- DelayModel

  class DelayModel {
    const config: Config
    const store: ArtifactStore
    var model: Classifier

    constructor (config: Config, store: ArtifactStore)
      ensures this.config == config && this.store == store
      ensures model == Untrained()
    {
      this.config := config;
      this.store := store;
      model := Untrained();
    }

    /**
     * `_features`: coerces MES, OPERA and TIPOVUELO of the caller's frame in place, then
     * returns the retained one-hot columns.
     */
    method Features(data: Frame) returns (r: Result<seq<seq<int>>, Error>)
      requires data.Valid()
      modifies data`rows
      ensures data.Valid()
      ensures data.rows == CoercedRows(config, old(data.rows))
      ensures r == FeaturesOf(config, old(data.rows))
    {
      data.rows := WithMonths(data.rows);
      if !Unique(config.operators) {
        return Err(DuplicateCategories("OPERA"));
      }
      data.rows := WithOperators(config, data.rows);
      if !Unique(config.flightTypes) {
        return Err(DuplicateCategories("TIPOVUELO"));
      }
      data.rows := WithFlightTypes(config, data.rows);
      r := EncodeFrame(config, data.rows);
    }

    /**
     * `preprocess`: the features, and in training mode the derived columns added to the
     * caller's frame in source order (period_day and high_season, then min_diff and delay),
     * each step reached only if the ones before it did not raise. On a frame with no rows the
     * row-wise apply behind min_diff raises after period_day and high_season were added.
     */
    method Preprocess(data: Frame, target: Option<string>) returns (r: Result<Preprocessed, Error>)
      requires data.Valid()
      modifies data
      ensures data.Valid()
      ensures r == PreprocessOf(config, old(data.rows), target)
      ensures data.rows == CoercedRows(config, old(data.rows))
      ensures ReachesPeriodDay(config, old(data.rows), target) ==>
        data.periodDay == Some(PeriodColumn(old(data.rows))) &&
        data.highSeason == Some(HighSeasonColumn(old(data.rows)))
      ensures !ReachesPeriodDay(config, old(data.rows), target) ==>
        data.periodDay == old(data.periodDay) && data.highSeason == old(data.highSeason)
      ensures ReachesMinDiff(config, old(data.rows), target) ==>
        data.minDiff == Some(MinDiffColumn(old(data.rows))) &&
        data.delay == Some(DelayColumn(config.threshold, MinDiffColumn(old(data.rows))))
      ensures !ReachesMinDiff(config, old(data.rows), target) ==>
        data.minDiff == old(data.minDiff) && data.delay == old(data.delay)
    {
      ghost var rows0 := data.rows;
      var features := Features(data);
      if features.Err? {
        return Err(features.error);
      }
      if target.None? || target.value == "" {
        return Ok(Serving(features.value));
      }
      CoercionKeepsStamps(config, rows0);
      StampsDetermineColumns(data.rows, rows0);
      var stampError := StampError(data.rows, FechaI);
      if stampError.Some? {
        return Err(stampError.value);
      }
      data.periodDay := Some(PeriodColumn(data.rows));
      data.highSeason := Some(HighSeasonColumn(data.rows));
      if |data.rows| == 0 {
        return Err(EmptyFrameApply("min_diff"));
      }
      stampError := StampError(data.rows, FechaO);
      if stampError.Some? {
        return Err(stampError.value);
      }
      var minDiffs := MinDiffColumn(data.rows);
      data.minDiff := Some(minDiffs);
      data.delay := Some(DelayColumn(config.threshold, minDiffs));
      if target.value != "delay" {
        return Err(UnsupportedTarget(target.value));
      }
      r := Ok(Training(features.value, data.delay.value));
    }

    /**
     * `fit`: sets the class weight label_0 / label_1, trains, and saves the classifier;
     * a failed save is swallowed: the previous artifact survives if the file was never
     * opened, and is left truncated if the dump failed after opening it.
     */
    method Fit(features: seq<seq<int>>, target: seq<int>, save: SaveOutcome) returns (r: Result<(), Error>)
      modifies this`model, store`saved
      ensures r == (if CountLabel(target, 1) > 0 then Ok(()) else Err(ZeroPositiveLabels))
      ensures r.Err? ==> model == old(model) && store.saved == old(store.saved)
      ensures r.Ok? ==> model == old(model).(
        scalePosWeight := Some(ScalePosWeight(target).value),
        fittedOn := Some(TrainingSet(features, target)))
      ensures r.Ok? && save == Saved ==> store.saved == Pickled(model)
      ensures r.Ok? && save == FailedBeforeWrite ==> store.saved == old(store.saved)
      ensures r.Ok? && save == FailedAfterTruncate ==> store.saved == Truncated
    {
      var weight := ScalePosWeight(target);
      if weight.Err? {
        return Err(weight.error);
      }
      model := model.(scalePosWeight := Some(weight.value));
      model := model.(fittedOn := Some(TrainingSet(features, target)));
      match save {
        case Saved => store.saved := Pickled(model);
        case FailedBeforeWrite =>
        case FailedAfterTruncate => store.saved := Truncated;
      }
      r := Ok(());
    }

    /**
     * `predict`: loads the saved artifact (never this object's own classifier) and labels
     * each row 1 exactly when its score exceeds 0.5, in input order.
     */
    method Predict(features: seq<seq<int>>, score: (Classifier, seq<int>) -> real) returns (r: Result<seq<int>, Error>)
      ensures store.saved == NoFile <==> r == Err(ArtifactMissing)
      ensures store.saved == Truncated <==> r == Err(ArtifactCorrupt)
      ensures store.saved.Pickled? ==> r == Ok(Decide(Scores(store.saved.classifier, features, score)))
      ensures r.Ok? ==> store.saved.Pickled? && |r.value| == |features|
      ensures r.Ok? ==> forall i :: 0 <= i < |features| ==>
        (r.value[i] == 1 <==> score(store.saved.classifier, features[i]) > 0.5)
    {
      var loaded := store.saved;
      match loaded
      case NoFile => return Err(ArtifactMissing);
      case Truncated => return Err(ArtifactCorrupt);
      case Pickled(m) => r := Ok(Decide(Scores(m, features, score)));
    }
  }

  /** Predicting twice over an unchanged artifact gives the same answer twice. */
  method PredictTwice(m: DelayModel, features: seq<seq<int>>, score: (Classifier, seq<int>) -> real)
    returns (first: Result<seq<int>, Error>, second: Result<seq<int>, Error>)
    ensures first == second
  {
    first := m.Predict(features, score);
    second := m.Predict(features, score);
  }

  /** Both frames carry the same timestamps, row by row. */
  predicate SameStamps(a: seq<Flight>, b: seq<Flight>)
  {
    |a| == |b| && forall i :: 0 <= i < |a| ==> a[i].fechaI == b[i].fechaI && a[i].fechaO == b[i].fechaO
  }

  lemma CoercionKeepsStamps(c: Config, rows: seq<Flight>)
    ensures SameStamps(CoercedRows(c, rows), rows)
  {
  }

  lemma StampErrorFollowsStamps(a: seq<Flight>, b: seq<Flight>, col: StampColumn)
    requires SameStamps(a, b)
    ensures StampError(a, col) == StampError(b, col)
  {
    if a != [] {
      StampErrorFollowsStamps(a[1..], b[1..], col);
    }
  }

  /** The derived columns depend on the timestamps only. */
  lemma StampsDetermineColumns(a: seq<Flight>, b: seq<Flight>)
    requires SameStamps(a, b)
    ensures StampError(a, FechaI) == StampError(b, FechaI)
    ensures StampError(a, FechaO) == StampError(b, FechaO)
    ensures StampError(a, FechaI).None? ==>
      PeriodColumn(a) == PeriodColumn(b) && HighSeasonColumn(a) == HighSeasonColumn(b)
    ensures StampError(a, FechaI).None? && StampError(a, FechaO).None? ==>
      MinDiffColumn(a) == MinDiffColumn(b)
  {
    StampErrorFollowsStamps(a, b, FechaI);
    StampErrorFollowsStamps(a, b, FechaO);
  }
}
