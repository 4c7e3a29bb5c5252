/**
 * The figures the report prints about the force table: the "Data Interpretation"
 * list under the data table, and the "Summary of Critical Values" table of the
 * conclusion, which places the extremes at fixed positions instead.
 */
module Metrics {
  import opened Wrappers
  import opened BeamData

  /** The position of the first row whose shear is exactly 0, if there is one. */
  function FirstZeroShear(rows: seq<Row>): (k: Option<nat>)
    ensures k.Some? ==> FirstHolding(rows, Shear, 0.0, k.value)
    ensures k.None? <==> forall j :: 0 <= j < |rows| ==> rows[j].shear != 0.0
  {
    if |rows| == 0 then None
    else if rows[0].shear == 0.0 then Some(0)
    else
      match FirstZeroShear(rows[1..])
      case None =>
        assert forall j :: 1 <= j < |rows| ==> rows[j] == rows[1..][j - 1];
        None
      case Some(k) =>
        assert forall j :: 1 <= j <= k + 1 ==> rows[j] == rows[1..][j - 1];
        Some(k + 1)
  }

  /**
   * The "Zero Shear Location": the position of the first row whose shear is
   * exactly 0, or None ("N/A") when no row has shear 0. No interpolation.
   */
  function ZeroShearLocation(rows: seq<Row>): (at: Option<real>)
    ensures at.None? <==> forall j :: 0 <= j < |rows| ==> rows[j].shear != 0.0
    ensures at.Some? ==> exists k :: FirstHolding(rows, Shear, 0.0, k) && rows[k].x == at.value
  {
    match FirstZeroShear(rows)
    case None => None
    case Some(k) => Some(rows[k].x)
  }

  /** The four bullets of the "Data Interpretation" list. */
  datatype Interpretation = Interpretation(
    maxShear: real, maxShearAt: real,
    minShear: real, minShearAt: real,
    maxMoment: real, maxMomentAt: real,
    zeroShearAt: Option<real>)

  /** v bounds column c from above, and some row holds it. */
  ghost predicate IsMax(rows: seq<Row>, c: Column, v: real) {
    (forall i :: 0 <= i < |rows| ==> Get(rows[i], c) <= v) &&
    exists i :: 0 <= i < |rows| && Get(rows[i], c) == v
  }

  /** v bounds column c from below, and some row holds it. */
  ghost predicate IsMin(rows: seq<Row>, c: Column, v: real) {
    (forall i :: 0 <= i < |rows| ==> v <= Get(rows[i], c)) &&
    exists i :: 0 <= i < |rows| && Get(rows[i], c) == v
  }

  /** `at` is the position of the first row whose column c holds v. */
  ghost predicate FirstAt(rows: seq<Row>, c: Column, v: real, at: real) {
    exists k :: FirstHolding(rows, c, v, k) && rows[k].x == at
  }

  /**
   * Each extreme in the list is the true extreme of its column, and its position
   * is that of the first row holding it; the zero-shear location is "N/A" exactly
   * when no row has shear 0.
   */
  function Interpret(rows: seq<Row>): (m: Interpretation)
    requires |rows| > 0
    ensures IsMax(rows, Shear, m.maxShear) && FirstAt(rows, Shear, m.maxShear, m.maxShearAt)
    ensures IsMin(rows, Shear, m.minShear) && FirstAt(rows, Shear, m.minShear, m.minShearAt)
    ensures IsMax(rows, Moment, m.maxMoment) && FirstAt(rows, Moment, m.maxMoment, m.maxMomentAt)
    ensures m.zeroShearAt.None? <==> forall j :: 0 <= j < |rows| ==> rows[j].shear != 0.0
    ensures m.zeroShearAt.Some? ==> FirstAt(rows, Shear, 0.0, m.zeroShearAt.value)
  {
    IdxMaxIsFirstMax(rows, Shear);
    IdxMinIsFirstMin(rows, Shear);
    IdxMaxIsFirstMax(rows, Moment);
    Interpretation(
      Max(rows, Shear), rows[IdxMax(rows, Shear)].x,
      Min(rows, Shear), rows[IdxMin(rows, Shear)].x,
      Max(rows, Moment), rows[IdxMax(rows, Moment)].x,
      ZeroShearLocation(rows))
  }

  /** A position reported for an extreme is never that of a later tied row. */
  lemma FirstAtIsUnique(rows: seq<Row>, c: Column, v: real, at1: real, at2: real)
    requires FirstAt(rows, c, v, at1) && FirstAt(rows, c, v, at2)
    ensures at1 == at2
  {
    var k1 :| FirstHolding(rows, c, v, k1) && rows[k1].x == at1;
    var k2 :| FirstHolding(rows, c, v, k2) && rows[k2].x == at2;
    assert k1 == k2;
  }

  /** One line of the "Summary of Critical Values" table. */
  datatype Critical = Critical(value: real, location: real)

  datatype Summary = Summary(maxPositiveShear: Critical, maxNegativeShear: Critical, maxMoment: Critical)

  /**
   * The conclusion table: the same three extremes, but located at x = 0.0, at the
   * beam length and at half the beam length, whatever the data says.
   */
  function ConclusionSummary(rows: seq<Row>): (s: Summary)
    requires |rows| > 0
    ensures IsMax(rows, Shear, s.maxPositiveShear.value) && s.maxPositiveShear.location == 0.0
    ensures IsMin(rows, Shear, s.maxNegativeShear.value) && s.maxNegativeShear.location == BeamLength(rows)
    ensures IsMax(rows, Moment, s.maxMoment.value) && s.maxMoment.location == BeamLength(rows) / 2.0
  {
    Summary(
      Critical(Max(rows, Shear), 0.0),
      Critical(Min(rows, Shear), BeamLength(rows)),
      Critical(Max(rows, Moment), BeamLength(rows) / 2.0))
  }

  /**
   * The conclusion's values agree with the interpretation list; its locations
   * depend on nothing but the beam length.
   */
  lemma ConclusionValuesAgree(rows: seq<Row>, others: seq<Row>)
    requires |rows| > 0 && |others| > 0
    ensures var s, m := ConclusionSummary(rows), Interpret(rows);
      s.maxPositiveShear.value == m.maxShear &&
      s.maxNegativeShear.value == m.minShear &&
      s.maxMoment.value == m.maxMoment
    ensures BeamLength(rows) == BeamLength(others) ==>
      var s, t := ConclusionSummary(rows), ConclusionSummary(others);
      s.maxPositiveShear.location == t.maxPositiveShear.location &&
      s.maxNegativeShear.location == t.maxNegativeShear.location &&
      s.maxMoment.location == t.maxMoment.location
  {
  }

  /**
   * The conclusion and the interpretation list can place the same extreme at
   * different positions: here shear peaks at x = 4, moment at x = 1.
   */
  lemma ConclusionLocationsCanDiffer()
    ensures var rows := [Row(0.0, 10.0, 0.0), Row(1.0, -5.0, 30.0), Row(4.0, 20.0, 0.0)];
      Interpret(rows).maxShearAt == 4.0 && ConclusionSummary(rows).maxPositiveShear.location == 0.0 &&
      Interpret(rows).minShearAt == 1.0 && ConclusionSummary(rows).maxNegativeShear.location == 4.0 &&
      Interpret(rows).maxMomentAt == 1.0 && ConclusionSummary(rows).maxMoment.location == 2.0
  {
    var rows := [Row(0.0, 10.0, 0.0), Row(1.0, -5.0, 30.0), Row(4.0, 20.0, 0.0)];
    assert IdxMax(rows, Shear) == 2;
    assert IdxMin(rows, Shear) == 1;
    assert IdxMax(rows, Moment) == 1;
    assert BeamLength(rows) == 4.0;
  }

  /** Two rows tie for the largest shear: the earlier one's position is reported. */
  lemma TiedMaximumReportsEarlierRow()
    ensures Interpret([Row(0.0, 50.0, 0.0), Row(2.0, 50.0, 100.0), Row(4.0, 50.0, 0.0)]) ==
      Interpretation(50.0, 0.0, 50.0, 0.0, 100.0, 2.0, None)
  {
    var rows := [Row(0.0, 50.0, 0.0), Row(2.0, 50.0, 100.0), Row(4.0, 50.0, 0.0)];
    assert IdxMax(rows, Shear) == 0;
    assert IdxMin(rows, Shear) == 0;
    assert IdxMax(rows, Moment) == 1;
  }

  /** A row with shear exactly 0 gives the zero-shear location. */
  lemma ExactZeroIsReported()
    ensures ZeroShearLocation([Row(0.0, 50.0, 0.0), Row(2.5, 0.0, 120.0), Row(5.0, -50.0, 0.0)]) == Some(2.5)
  {
  }
}
