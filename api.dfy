/**
 * The `/predict` endpoint: the per-field validators of a flight, the split of the request
 * into columns, and the call into the model.
 */
module Api {

  import opened Wrappers
  import opened Errors
  import opened Encoding
  import opened Decisions
  import opened Pipeline

  /**
   * The two lists of the endpoint's own settings file that its validators consult; the model
   * reads its lists from its own `Config`.
   */
  datatype ApiSettings = ApiSettings(flightTypes: seq<string>, operators: seq<string>)

  /** One flight of the request body. */
  datatype FlightValidation = FlightValidation(tipoVuelo: string, mes: int, opera: string)

  /** The rejected field and its value (the HTTP 400 detail). */
  datatype ValidationError = InvalidTipoVuelo(value: string) | InvalidMes(month: int) | InvalidOpera(value: string)

  /** `validate_TIPOVUELO`: the value must be a configured flight type. */
  function ValidateTipoVuelo(s: ApiSettings, value: string): (r: Result<string, ValidationError>)
    ensures r.Ok? <==> value in s.flightTypes
    ensures r.Ok? ==> r.value == value
    ensures r.Err? ==> r.error == InvalidTipoVuelo(value)
  {
    if value !in s.flightTypes then Err(InvalidTipoVuelo(value)) else Ok(value)
  }

  /** `validate_MES`: membership of `range(1, 13)`, that is a month number 1..12. */
  function ValidateMes(value: int): (r: Result<int, ValidationError>)
    ensures r.Ok? <==> 1 <= value <= 12
    ensures r.Ok? ==> r.value == value
    ensures r.Err? ==> r.error == InvalidMes(value)
  {
    if value !in Months() then Err(InvalidMes(value)) else Ok(value)
  }

  /** `validate_OPERA`: the value must be a configured operator. */
  function ValidateOpera(s: ApiSettings, value: string): (r: Result<string, ValidationError>)
    ensures r.Ok? <==> value in s.operators
    ensures r.Ok? ==> r.value == value
    ensures r.Err? ==> r.error == InvalidOpera(value)
  {
    if value !in s.operators then Err(InvalidOpera(value)) else Ok(value)
  }

  /**
   * A flight's validators run in field order (TIPOVUELO, MES, OPERA); the first one that
   * raises rejects the flight. A flight passes exactly when all three fields are in range,
   * and then comes back unchanged.
   */
  function ValidateFlight(s: ApiSettings, f: FlightValidation): (r: Result<FlightValidation, ValidationError>)
    ensures r.Ok? <==> f.tipoVuelo in s.flightTypes && 1 <= f.mes <= 12 && f.opera in s.operators
    ensures r.Ok? ==> r.value == f
    ensures f.tipoVuelo !in s.flightTypes ==> r == Err(InvalidTipoVuelo(f.tipoVuelo))
    ensures f.tipoVuelo in s.flightTypes && !(1 <= f.mes <= 12) ==> r == Err(InvalidMes(f.mes))
    ensures f.tipoVuelo in s.flightTypes && 1 <= f.mes <= 12 && f.opera !in s.operators ==> r == Err(InvalidOpera(f.opera))
  {
    match ValidateTipoVuelo(s, f.tipoVuelo)
    case Err(e) => Err(e)
    case Ok(t) =>
      match ValidateMes(f.mes)
      case Err(e) => Err(e)
      case Ok(m) =>
        match ValidateOpera(s, f.opera)
        case Err(e) => Err(e)
        case Ok(o) => Ok(FlightValidation(t, m, o))
  }

  /** Flight `i` is rejected with `e` and every flight before it passes. */
  predicate FirstRejectedAt(s: ApiSettings, flights: seq<FlightValidation>, i: int, e: ValidationError)
  {
    0 <= i < |flights| && ValidateFlight(s, flights[i]) == Err(e) &&
    forall j :: 0 <= j < i ==> ValidateFlight(s, flights[j]).Ok?
  }

  /** The request body is parsed flight by flight; the first rejected flight rejects the request. */
  function ValidateRequest(s: ApiSettings, flights: seq<FlightValidation>): (r: Result<seq<FlightValidation>, ValidationError>)
    ensures r.Ok? <==> forall i :: 0 <= i < |flights| ==> ValidateFlight(s, flights[i]).Ok?
    ensures r.Ok? ==> r.value == flights
    ensures r.Err? ==> exists i :: FirstRejectedAt(s, flights, i, r.error)
  {
    if flights == [] then Ok([])
    else match ValidateFlight(s, flights[0])
      case Err(e) =>
        assert FirstRejectedAt(s, flights, 0, e);
        Err(e)
      case Ok(f) =>
        match ValidateRequest(s, flights[1..])
        case Err(e) =>
          assert exists i :: FirstRejectedAt(s, flights, i, e) by {
            var i :| FirstRejectedAt(s, flights[1..], i, e);
            assert forall j :: 0 <= j < i + 1 ==> ValidateFlight(s, flights[j]).Ok? by {
              forall j | 0 <= j < i + 1 ensures ValidateFlight(s, flights[j]).Ok? {
                if j > 0 { assert flights[j] == flights[1..][j - 1]; }
              }
            }
            assert ValidateFlight(s, flights[i + 1]) == Err(e);
            assert FirstRejectedAt(s, flights, i + 1, e);
          }
          Err(e)
        case Ok(rest) =>
          assert flights == [flights[0]] + flights[1..];
          assert forall i :: 0 <= i < |flights| ==> ValidateFlight(s, flights[i]).Ok? by {
            forall i | 0 <= i < |flights| ensures ValidateFlight(s, flights[i]).Ok? {
              if i > 0 { assert flights[i] == flights[1..][i - 1]; }
            }
          }
          Ok([f] + rest)
  }

  /** The three lists the endpoint builds, one entry per flight. */
  datatype RequestColumns = RequestColumns(types: seq<string>, months: seq<int>, operators: seq<string>)

  /** The request's list comprehensions: entry i of each list is the field of flight i. */
  function Columns(flights: seq<FlightValidation>): (r: RequestColumns)
    ensures |r.types| == |flights| && |r.months| == |flights| && |r.operators| == |flights|
    ensures forall i :: 0 <= i < |flights| ==>
      r.types[i] == flights[i].tipoVuelo && r.months[i] == flights[i].mes && r.operators[i] == flights[i].opera
  {
    RequestColumns(
      seq(|flights|, i requires 0 <= i < |flights| => flights[i].tipoVuelo),
      seq(|flights|, i requires 0 <= i < |flights| => flights[i].mes),
      seq(|flights|, i requires 0 <= i < |flights| => flights[i].opera))
  }

  /** A validated flight as a frame row without timestamps. */
  function AsFlight(f: FlightValidation): Flight
  {
    Flight(Some(f.opera), Some(f.tipoVuelo), Some(f.mes), None, None)
  }

  /** `pd.DataFrame({"MES": ..., "OPERA": ..., "TIPOVUELO": ...})`: row i gathers entry i of each list. */
  function RequestRows(cols: RequestColumns): (r: seq<Flight>)
    requires |cols.types| == |cols.months| == |cols.operators|
    ensures |r| == |cols.types|
    ensures forall i :: 0 <= i < |r| ==>
      r[i].opera == Some(cols.operators[i]) && r[i].tipoVuelo == Some(cols.types[i]) && r[i].mes == Some(cols.months[i])
    ensures forall i :: 0 <= i < |r| ==> r[i].fechaI.None? && r[i].fechaO.None?
  {
    seq(|cols.types|, i requires 0 <= i < |cols.types| && |cols.types| == |cols.months| == |cols.operators| =>
      Flight(Some(cols.operators[i]), Some(cols.types[i]), Some(cols.months[i]), None, None))
  }

  /** Splitting the flights into columns and rebuilding the frame gives back flight i at row i. */
  lemma ColumnsRoundTrip(flights: seq<FlightValidation>)
    ensures |RequestRows(Columns(flights))| == |flights|
    ensures forall i :: 0 <= i < |flights| ==> RequestRows(Columns(flights))[i] == AsFlight(flights[i])
  {
  }

  /**
   * When the endpoint's lists are contained in the model's, a validated flight passes the
   * categorical coercion unchanged, and its feature row sets exactly the retained columns
   * named after its operator, flight type and month.
   */
  lemma ValidatedFlightEncoding(s: ApiSettings, c: Config, f: FlightValidation, k: int)
    requires forall x :: x in s.flightTypes ==> x in c.flightTypes
    requires forall x :: x in s.operators ==> x in c.operators
    requires ValidateFlight(s, f).Ok? && Selectable(c) && 0 <= k < |c.topFeatures|
    ensures CategorizeRow(c, AsFlight(f)) == AsFlight(f)
    ensures ProjectRow(c, AsFlight(f))[k] == 1 <==>
      c.topFeatures[k] == OperaColumn(f.opera) ||
      c.topFeatures[k] == TipoVueloColumn(f.tipoVuelo) ||
      c.topFeatures[k] == MesColumn(f.mes)
  {
  }

  /**
   * `post_predict` as a value of the model's settings, the saved artifact and the (validated)
   * request: the encoding's error, else the artifact's, else one prediction per flight.
   */
  function ServeOf(c: Config, saved: Artifact, flights: seq<FlightValidation>,
                   score: (Classifier, seq<int>) -> real): (r: Result<seq<int>, Error>)
    ensures r.Ok? <==> FeaturesOf(c, RequestRows(Columns(flights))).Ok? && saved.Pickled?
    ensures FeaturesOf(c, RequestRows(Columns(flights))).Err? ==>
      r == Err(FeaturesOf(c, RequestRows(Columns(flights))).error)
    ensures FeaturesOf(c, RequestRows(Columns(flights))).Ok? && saved == NoFile ==> r == Err(ArtifactMissing)
    ensures FeaturesOf(c, RequestRows(Columns(flights))).Ok? && saved == Truncated ==> r == Err(ArtifactCorrupt)
    ensures r.Ok? ==> |r.value| == |flights|
  {
    match FeaturesOf(c, RequestRows(Columns(flights)))
    case Err(e) => Err(e)
    case Ok(features) =>
      match saved
      case NoFile => Err(ArtifactMissing)
      case Truncated => Err(ArtifactCorrupt)
      case Pickled(m) => Ok(Decide(Scores(m, features, score)))
  }

  /**
   * The response has one prediction per flight, in request order, and prediction i depends on
   * flight i alone: 1 exactly when the saved classifier scores its feature row above 0.5.
   */
  lemma ServeRowByRow(c: Config, saved: Artifact, flights: seq<FlightValidation>,
                      score: (Classifier, seq<int>) -> real, i: int)
    requires ServeOf(c, saved, flights, score).Ok? && 0 <= i < |flights|
    ensures saved.Pickled? && Selectable(c)
    ensures |ServeOf(c, saved, flights, score).value| == |flights|
    ensures ServeOf(c, saved, flights, score).value[i] == 1 <==>
      score(saved.classifier, ProjectRow(c, CategorizeRow(c, AsFlight(flights[i])))) > 0.5
  {
    var rows := RequestRows(Columns(flights));
    ColumnsRoundTrip(flights);
    CategorizedRows(c, rows);
  }

  /**
   * `post_predict`: builds the frame from the request's columns, preprocesses it in serving
   * mode and returns the model's predictions as they are.
   */
  method PostPredict(model: DelayModel, flights: seq<FlightValidation>, score: (Classifier, seq<int>) -> real)
    returns (r: Result<seq<int>, Error>)
    ensures r == ServeOf(model.config, model.store.saved, flights, score)
  {
    var cols := Columns(flights);
    var frame := new Frame(RequestRows(cols));
    var features := model.Preprocess(frame, None);
    if features.Err? {
      return Err(features.error);
    }
    r := model.Predict(features.value.features, score);
  }
}
