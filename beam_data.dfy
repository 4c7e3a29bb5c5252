/**
 * The force table as loaded from the spreadsheet, and the column statistics the
 * report takes from it: max(), min(), idxmax() and idxmin() of one column.
 * idxmax()/idxmin() return the FIRST row holding the extreme value.
 */
module BeamData {

  /** One row of the force table: position along the beam (m), shear force (kN), bending moment (kN·m). */
  datatype Row = Row(x: real, shear: real, moment: real)

  /** The three columns of the sheet: 'x', 'Shear force' and 'Bending Moment'. */
  datatype Column = X | Shear | Moment

  function Get(r: Row, c: Column): real {
    match c
    case X => r.x
    case Shear => r.shear
    case Moment => r.moment
  }

  /** The largest value of column c. */
  function Max(rows: seq<Row>, c: Column): (m: real)
    requires |rows| > 0
    ensures forall i :: 0 <= i < |rows| ==> Get(rows[i], c) <= m
    ensures exists i :: 0 <= i < |rows| && Get(rows[i], c) == m
  {
    if |rows| == 1 then Get(rows[0], c)
    else
      var rest := Max(rows[1..], c);
      if Get(rows[0], c) >= rest then Get(rows[0], c)
      else
        assert exists i :: 1 <= i < |rows| && Get(rows[i], c) == rest by {
          var j :| 0 <= j < |rows[1..]| && Get(rows[1..][j], c) == rest;
          assert rows[j + 1] == rows[1..][j];
        }
        rest
  }

  /** The smallest value of column c. */
  function Min(rows: seq<Row>, c: Column): (m: real)
    requires |rows| > 0
    ensures forall i :: 0 <= i < |rows| ==> m <= Get(rows[i], c)
    ensures exists i :: 0 <= i < |rows| && Get(rows[i], c) == m
  {
    if |rows| == 1 then Get(rows[0], c)
    else
      var rest := Min(rows[1..], c);
      if Get(rows[0], c) <= rest then Get(rows[0], c)
      else
        assert exists i :: 1 <= i < |rows| && Get(rows[i], c) == rest by {
          var j :| 0 <= j < |rows[1..]| && Get(rows[1..][j], c) == rest;
          assert rows[j + 1] == rows[1..][j];
        }
        rest
  }

  /** The index of the first row holding the largest value of column c. */
  function IdxMax(rows: seq<Row>, c: Column): (k: nat)
    requires |rows| > 0
    ensures k < |rows|
    ensures forall i :: 0 <= i < |rows| ==> Get(rows[i], c) <= Get(rows[k], c)
    ensures forall i :: 0 <= i < k ==> Get(rows[i], c) < Get(rows[k], c)
  {
    if |rows| == 1 then 0
    else
      var k := 1 + IdxMax(rows[1..], c);
      if Get(rows[0], c) >= Get(rows[k], c) then 0 else k
  }

  /** The index of the first row holding the smallest value of column c. */
  function IdxMin(rows: seq<Row>, c: Column): (k: nat)
    requires |rows| > 0
    ensures k < |rows|
    ensures forall i :: 0 <= i < |rows| ==> Get(rows[k], c) <= Get(rows[i], c)
    ensures forall i :: 0 <= i < k ==> Get(rows[k], c) < Get(rows[i], c)
  {
    if |rows| == 1 then 0
    else
      var k := 1 + IdxMin(rows[1..], c);
      if Get(rows[0], c) <= Get(rows[k], c) then 0 else k
  }

  /** Row k is the first row whose column c holds v. */
  ghost predicate FirstHolding(rows: seq<Row>, c: Column, v: real, k: int) {
    0 <= k < |rows| && Get(rows[k], c) == v &&
    forall j :: 0 <= j < k ==> Get(rows[j], c) != v
  }

  /** idxmax() points at the row holding max(), and at no row after the first such row. */
  lemma IdxMaxIsFirstMax(rows: seq<Row>, c: Column)
    requires |rows| > 0
    ensures FirstHolding(rows, c, Max(rows, c), IdxMax(rows, c))
    ensures forall k :: FirstHolding(rows, c, Max(rows, c), k) ==> k == IdxMax(rows, c)
  {
  }

  /** idxmin() points at the row holding min(), and at no row after the first such row. */
  lemma IdxMinIsFirstMin(rows: seq<Row>, c: Column)
    requires |rows| > 0
    ensures FirstHolding(rows, c, Min(rows, c), IdxMin(rows, c))
    ensures forall k :: FirstHolding(rows, c, Min(rows, c), k) ==> k == IdxMin(rows, c)
  {
  }

  /** The beam length is the largest position in the table. */
  function BeamLength(rows: seq<Row>): (len: real)
    requires |rows| > 0
    ensures forall i :: 0 <= i < |rows| ==> rows[i].x <= len
    ensures exists i :: 0 <= i < |rows| && rows[i].x == len
  {
    var len := Max(rows, X);
    assert forall i :: 0 <= i < |rows| ==> rows[i].x == Get(rows[i], X);
    len
  }
}
