/**
 * `DelayModel._features`: categorical coercion of MES, OPERA and TIPOVUELO, one-hot
 * expansion over the configured universes, then projection onto the retained features.
 */
module Encoding {

  import opened Wrappers
  import opened Errors
  import opened Text
  import opened DateTimes

  /** The settings: delay threshold, operator and flight-type universes, retained feature columns. */
  datatype Config = Config(threshold: real, operators: seq<string>, flightTypes: seq<string>, topFeatures: seq<string>)

  /**
   * One frame row. `None` is pandas' missing value: an absent timestamp, or a category
   * value that the categorical coercion turned into NaN.
   */
  datatype Flight = Flight(
    opera: Option<string>,
    tipoVuelo: Option<string>,
    mes: Option<int>,
    fechaI: Option<DateTime>,
    fechaO: Option<DateTime>)

  predicate Unique<T(==)>(s: seq<T>)
  {
    forall i, j :: 0 <= i < j < |s| ==> s[i] != s[j]
  }

  /** `range(1, 13)`, the month categories. */
  function Months(): (r: seq<int>)
    ensures forall m :: m in r <==> 1 <= m <= 12
  {
    [1, 2, 3, 4, 5, 6, 7, 8, 9, 10, 11, 12]
  }

  // ---------------------------------------------------------------- categorical coercion

  /** `pd.Categorical(values, categories=cs)` on one value: kept when it is a category, missing otherwise. */
  function Categorize<T(==)>(v: Option<T>, categories: seq<T>): (r: Option<T>)
    ensures r.Some? <==> v.Some? && v.value in categories
    ensures r.Some? ==> r == v
  {
    if v.Some? && v.value in categories then v else None
  }

  function WithMonths(rows: seq<Flight>): (r: seq<Flight>)
    ensures |r| == |rows|
  {
    seq(|rows|, i requires 0 <= i < |rows| => rows[i].(mes := Categorize(rows[i].mes, Months())))
  }

  function WithOperators(c: Config, rows: seq<Flight>): (r: seq<Flight>)
    ensures |r| == |rows|
  {
    seq(|rows|, i requires 0 <= i < |rows| => rows[i].(opera := Categorize(rows[i].opera, c.operators)))
  }

  function WithFlightTypes(c: Config, rows: seq<Flight>): (r: seq<Flight>)
    ensures |r| == |rows|
  {
    seq(|rows|, i requires 0 <= i < |rows| => rows[i].(tipoVuelo := Categorize(rows[i].tipoVuelo, c.flightTypes)))
  }

  function CategorizeRow(c: Config, f: Flight): Flight
  {
    f.(mes := Categorize(f.mes, Months()),
       opera := Categorize(f.opera, c.operators),
       tipoVuelo := Categorize(f.tipoVuelo, c.flightTypes))
  }

  /** Lines 159-161 in order: the three columns coerced, everything else in the row untouched. */
  lemma CategorizedRows(c: Config, rows: seq<Flight>)
    ensures |WithFlightTypes(c, WithOperators(c, WithMonths(rows)))| == |rows|
    ensures forall i :: 0 <= i < |rows| ==>
      WithFlightTypes(c, WithOperators(c, WithMonths(rows)))[i] == CategorizeRow(c, rows[i])
  {
  }

  // ---------------------------------------------------------------- one-hot expansion

  function OperaColumn(o: string): string { "OPERA_" + o }

  function TipoVueloColumn(t: string): string { "TIPOVUELO_" + t }

  function MesColumn(m: nat): string { "MES_" + Decimal(m) }

  /** The columns `get_dummies` generates, in `concat` order: operators, flight types, months 1..12. */
  function DummyColumns(c: Config): (r: seq<string>)
    ensures |r| == |c.operators| + |c.flightTypes| + 12
  {
    seq(|c.operators|, i requires 0 <= i < |c.operators| => OperaColumn(c.operators[i])) +
    seq(|c.flightTypes|, i requires 0 <= i < |c.flightTypes| => TipoVueloColumn(c.flightTypes[i])) +
    seq(12, i requires 0 <= i < 12 => MesColumn(i + 1))
  }

  /** One row of the concatenated dummies: 1 where the row's value equals the column's category. */
  function Expand(c: Config, f: Flight): (r: seq<int>)
    ensures |r| == |DummyColumns(c)|
  {
    seq(|c.operators|, i requires 0 <= i < |c.operators| => if f.opera == Some(c.operators[i]) then 1 else 0) +
    seq(|c.flightTypes|, i requires 0 <= i < |c.flightTypes| => if f.tipoVuelo == Some(c.flightTypes[i]) then 1 else 0) +
    seq(12, i => if f.mes == Some(i + 1) then 1 else 0)
  }

  /** The column named `name` is the one-hot column of one of the row's own values. */
  predicate Matches(f: Flight, name: string)
  {
    (f.opera.Some? && name == OperaColumn(f.opera.value)) ||
    (f.tipoVuelo.Some? && name == TipoVueloColumn(f.tipoVuelo.value)) ||
    (f.mes.Some? && f.mes.value >= 0 && name == MesColumn(f.mes.value))
  }

  /** Every generated column is set exactly when it names one of the row's values. */
  lemma ExpandAligned(c: Config, f: Flight, j: int)
    requires 0 <= j < |DummyColumns(c)|
    ensures Expand(c, f)[j] == (if Matches(f, DummyColumns(c)[j]) then 1 else 0)
  {
    var nO, nT := |c.operators|, |c.flightTypes|;
    var name := DummyColumns(c)[j];
    if j < nO {
      var o := c.operators[j];
      assert name == OperaColumn(o);
      assert name[0] == 'O';
      if f.opera.Some? && name == OperaColumn(f.opera.value) {
        PrefixCancels("OPERA_", f.opera.value, o);
      }
      assert f.tipoVuelo.Some? ==> TipoVueloColumn(f.tipoVuelo.value)[0] == 'T';
      assert f.mes.Some? && f.mes.value >= 0 ==> MesColumn(f.mes.value)[0] == 'M';
    } else if j < nO + nT {
      var t := c.flightTypes[j - nO];
      assert name == TipoVueloColumn(t);
      assert name[0] == 'T';
      if f.tipoVuelo.Some? && name == TipoVueloColumn(f.tipoVuelo.value) {
        PrefixCancels("TIPOVUELO_", f.tipoVuelo.value, t);
      }
      assert f.opera.Some? ==> OperaColumn(f.opera.value)[0] == 'O';
      assert f.mes.Some? && f.mes.value >= 0 ==> MesColumn(f.mes.value)[0] == 'M';
    } else {
      var m := j - nO - nT + 1;
      assert name == MesColumn(m);
      assert name[0] == 'M';
      if f.mes.Some? && f.mes.value >= 0 && name == MesColumn(f.mes.value) {
        PrefixCancels("MES_", Decimal(f.mes.value), Decimal(m));
        DecimalInjective(f.mes.value, m);
      }
      assert f.opera.Some? ==> OperaColumn(f.opera.value)[0] == 'O';
      assert f.tipoVuelo.Some? ==> TipoVueloColumn(f.tipoVuelo.value)[0] == 'T';
    }
  }

  // ---------------------------------------------------------------- projection

  /** Every retained feature is one of the generated columns, so `features[TOP_FEATURES]` succeeds. */
  predicate Selectable(c: Config)
  {
    forall k :: 0 <= k < |c.topFeatures| ==> c.topFeatures[k] in DummyColumns(c)
  }

  function IndexOf(names: seq<string>, name: string): (j: nat)
    requires name in names
    ensures j < |names| && names[j] == name
  {
    if names[0] == name then 0 else 1 + IndexOf(names[1..], name)
  }

  /** One feature row: for each retained column, in order, 1 exactly when it names one of the row's values. */
  function ProjectRow(c: Config, f: Flight): (r: seq<int>)
    requires Selectable(c)
    ensures |r| == |c.topFeatures|
    ensures forall k :: 0 <= k < |r| ==> r[k] == (if Matches(f, c.topFeatures[k]) then 1 else 0)
  {
    var names, row := DummyColumns(c), Expand(c, f);
    var r := seq(|c.topFeatures|, k requires 0 <= k < |c.topFeatures| => row[IndexOf(names, c.topFeatures[k])]);
    assert forall k :: 0 <= k < |r| ==> r[k] == (if Matches(f, c.topFeatures[k]) then 1 else 0) by {
      forall k | 0 <= k < |r|
        ensures r[k] == (if Matches(f, c.topFeatures[k]) then 1 else 0)
      {
        ExpandAligned(c, f, IndexOf(names, c.topFeatures[k]));
      }
    }
    r
  }

  /** The first retained feature that is not a generated column, if any. */
  function MissingFeature(c: Config, k: nat): (r: Option<string>)
    requires k <= |c.topFeatures|
    ensures r.None? <==> forall j :: k <= j < |c.topFeatures| ==> c.topFeatures[j] in DummyColumns(c)
    ensures r.Some? ==> r.value in c.topFeatures[k..] && r.value !in DummyColumns(c)
    decreases |c.topFeatures| - k
  {
    if k == |c.topFeatures| then None
    else if c.topFeatures[k] !in DummyColumns(c) then Some(c.topFeatures[k])
    else MissingFeature(c, k + 1)
  }

  /** Expand then project a whole (already coerced) frame: one feature row per frame row, in order. */
  function EncodeFrame(c: Config, rows: seq<Flight>): (r: Result<seq<seq<int>>, Error>)
    ensures r.Ok? <==> Selectable(c)
    ensures r.Err? ==> r.error.MissingFeatureColumn? && r.error.name in c.topFeatures && r.error.name !in DummyColumns(c)
    ensures r.Ok? ==> |r.value| == |rows| && forall i :: 0 <= i < |rows| ==> r.value[i] == ProjectRow(c, rows[i])
  {
    match MissingFeature(c, 0)
    case Some(name) => Err(MissingFeatureColumn(name))
    case None => Ok(seq(|rows|, i requires 0 <= i < |rows| => ProjectRow(c, rows[i])))
  }

  /**
   * `_features` as a value: coercion fails on repeated categories (operators first), then the
   * coerced frame is encoded.
   */
  function FeaturesOf(c: Config, rows: seq<Flight>): (r: Result<seq<seq<int>>, Error>)
    ensures !Unique(c.operators) ==> r == Err(DuplicateCategories("OPERA"))
    ensures Unique(c.operators) && !Unique(c.flightTypes) ==> r == Err(DuplicateCategories("TIPOVUELO"))
    ensures Unique(c.operators) && Unique(c.flightTypes) && !Selectable(c) ==>
      r.Err? && r.error.MissingFeatureColumn? && r.error.name in c.topFeatures && r.error.name !in DummyColumns(c)
    ensures r.Ok? <==> Unique(c.operators) && Unique(c.flightTypes) && Selectable(c)
    ensures r.Ok? ==> |r.value| == |rows|
    ensures r.Ok? ==> forall i, k :: 0 <= i < |rows| && 0 <= k < |c.topFeatures| ==>
      |r.value[i]| == |c.topFeatures| &&
      r.value[i][k] == (if Matches(CategorizeRow(c, rows[i]), c.topFeatures[k]) then 1 else 0)
  {
    CategorizedRows(c, rows);
    if !Unique(c.operators) then Err(DuplicateCategories("OPERA"))
    else if !Unique(c.flightTypes) then Err(DuplicateCategories("TIPOVUELO"))
    else EncodeFrame(c, WithFlightTypes(c, WithOperators(c, WithMonths(rows))))
  }

  // ---------------------------------------------------------------- properties of the encoding

  predicate IsOperaName(name: string) { HasPrefix(name, "OPERA_") }
  predicate IsTipoVueloName(name: string) { HasPrefix(name, "TIPOVUELO_") }
  predicate IsMesName(name: string) { HasPrefix(name, "MES_") }

  /** Among a row's set indicators, any two of the same family name the same column. */
  lemma AtMostOnePerFamily(c: Config, f: Flight, k1: int, k2: int)
    requires Selectable(c)
    requires 0 <= k1 < |c.topFeatures| && 0 <= k2 < |c.topFeatures|
    requires ProjectRow(c, f)[k1] == 1 && ProjectRow(c, f)[k2] == 1
    requires (IsOperaName(c.topFeatures[k1]) && IsOperaName(c.topFeatures[k2])) ||
             (IsTipoVueloName(c.topFeatures[k1]) && IsTipoVueloName(c.topFeatures[k2])) ||
             (IsMesName(c.topFeatures[k1]) && IsMesName(c.topFeatures[k2]))
    ensures c.topFeatures[k1] == c.topFeatures[k2]
  {
    var n1, n2 := c.topFeatures[k1], c.topFeatures[k2];
    assert Matches(f, n1) && Matches(f, n2);
    assert f.opera.Some? ==> OperaColumn(f.opera.value)[0] == 'O';
    assert f.tipoVuelo.Some? ==> TipoVueloColumn(f.tipoVuelo.value)[0] == 'T';
    assert f.mes.Some? && f.mes.value >= 0 ==> MesColumn(f.mes.value)[0] == 'M';
    assert f.opera.Some? ==> OperaColumn(f.opera.value)[..6] == "OPERA_";
    assert f.tipoVuelo.Some? ==> TipoVueloColumn(f.tipoVuelo.value)[..10] == "TIPOVUELO_";
    assert f.mes.Some? && f.mes.value >= 0 ==> MesColumn(f.mes.value)[..4] == "MES_";
  }

  /** A raw value outside its universe leaves every column of its family at 0. */
  lemma UnknownCategoryAllZero(c: Config, raw: Flight, k: int)
    requires Selectable(c) && 0 <= k < |c.topFeatures|
    ensures raw.opera.Some? && raw.opera.value !in c.operators && IsOperaName(c.topFeatures[k]) ==>
      ProjectRow(c, CategorizeRow(c, raw))[k] == 0
    ensures raw.tipoVuelo.Some? && raw.tipoVuelo.value !in c.flightTypes && IsTipoVueloName(c.topFeatures[k]) ==>
      ProjectRow(c, CategorizeRow(c, raw))[k] == 0
    ensures raw.mes.Some? && !(1 <= raw.mes.value <= 12) && IsMesName(c.topFeatures[k]) ==>
      ProjectRow(c, CategorizeRow(c, raw))[k] == 0
  {
    var f, name := CategorizeRow(c, raw), c.topFeatures[k];
    assert f.opera.Some? ==> OperaColumn(f.opera.value)[0] == 'O';
    assert f.tipoVuelo.Some? ==> TipoVueloColumn(f.tipoVuelo.value)[0] == 'T';
    assert f.mes.Some? && f.mes.value >= 0 ==> MesColumn(f.mes.value)[0] == 'M';
  }

  /** A raw value inside its universe sets the retained column named after it. */
  lemma KnownCategorySet(c: Config, raw: Flight, k: int)
    requires Selectable(c) && 0 <= k < |c.topFeatures|
    ensures raw.opera.Some? && raw.opera.value in c.operators && c.topFeatures[k] == OperaColumn(raw.opera.value) ==>
      ProjectRow(c, CategorizeRow(c, raw))[k] == 1
    ensures raw.tipoVuelo.Some? && raw.tipoVuelo.value in c.flightTypes && c.topFeatures[k] == TipoVueloColumn(raw.tipoVuelo.value) ==>
      ProjectRow(c, CategorizeRow(c, raw))[k] == 1
    ensures raw.mes.Some? && 1 <= raw.mes.value <= 12 && c.topFeatures[k] == MesColumn(raw.mes.value) ==>
      ProjectRow(c, CategorizeRow(c, raw))[k] == 1
  {
  }
}
