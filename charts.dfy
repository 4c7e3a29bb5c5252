/**
 * The two pgfplots charts: the coordinate lists of the shear force diagram (split
 * into a positive and a negative series for the two bar colours) and of the
 * bending moment diagram, the axis ranges, and the dashed zero line.
 * Number-to-text (Python's str() of a float) is the parameter `str`.
 */
module Charts {
  import opened BeamData
  import opened TextLines

  /**
   * One coordinate of a series: a bar carrying a value, or the placeholder
   * "(x, 0)" written in the slot that does not carry the shear.
   */
  datatype Coord = Bar(x: real, y: real) | Gap(x: real)

  /** The height pgfplots draws for a coordinate. */
  function Height(c: Coord): real {
    if c.Bar? then c.y else 0.0
  }

  function PositiveEntry(r: Row): Coord {
    if r.shear >= 0.0 then Bar(r.x, r.shear) else Gap(r.x)
  }

  function NegativeEntry(r: Row): Coord {
    if r.shear >= 0.0 then Gap(r.x) else Bar(r.x, r.shear)
  }

  /**
   * The "Positive Shear" series: one entry per row, in row order, at the row's
   * position, never below 0.
   */
  function PositiveSeries(rows: seq<Row>): (s: seq<Coord>)
    ensures |s| == |rows|
    ensures forall i :: 0 <= i < |rows| ==> s[i].x == rows[i].x && Height(s[i]) >= 0.0
  {
    seq(|rows|, i requires 0 <= i < |rows| => PositiveEntry(rows[i]))
  }

  /**
   * The "Negative Shear" series: one entry per row, in row order, at the row's
   * position, never above 0.
   */
  function NegativeSeries(rows: seq<Row>): (s: seq<Coord>)
    ensures |s| == |rows|
    ensures forall i :: 0 <= i < |rows| ==> s[i].x == rows[i].x && Height(s[i]) <= 0.0
  {
    seq(|rows|, i requires 0 <= i < |rows| => NegativeEntry(rows[i]))
  }

  /** The bending moment series: one (x, moment) bar per row, in row order. */
  function MomentSeries(rows: seq<Row>): (s: seq<Coord>)
    ensures |s| == |rows|
    ensures forall i :: 0 <= i < |rows| ==> s[i].Bar? && s[i].x == rows[i].x && Height(s[i]) == rows[i].moment
  {
    seq(|rows|, i requires 0 <= i < |rows| => Bar(rows[i].x, rows[i].moment))
  }

  const CoordIndent := "            "

  function CoordLine(c: Coord, str: real -> string): string {
    match c
    case Bar(x, y) => CoordIndent + "(" + str(x) + ", " + str(y) + ")\n"
    case Gap(x) => CoordIndent + "(" + str(x) + ", 0)\n"
  }

  /** The lines of a coordinate list: one line per coordinate, in order. */
  function CoordLines(cs: seq<Coord>, str: real -> string): seq<string> {
    seq(|cs|, i requires 0 <= i < |cs| => CoordLine(cs[i], str))
  }

  /** The text of a coordinate list. */
  function RenderCoords(cs: seq<Coord>, str: real -> string): string {
    Concat(CoordLines(cs, str))
  }

  /**
   * The SFD split: both series have one entry per row at the row's position;
   * the positive entry is never below 0, the negative entry never above 0, the
   * two add up to the shear, and exactly one of them carries it (the positive
   * one when the shear is 0 or more).
   */
  lemma SfdSeriesSplitShear(rows: seq<Row>)
    ensures |PositiveSeries(rows)| == |rows| && |NegativeSeries(rows)| == |rows|
    ensures forall i :: 0 <= i < |rows| ==>
      var p, n := PositiveSeries(rows)[i], NegativeSeries(rows)[i];
      p.x == rows[i].x && n.x == rows[i].x &&
      Height(p) >= 0.0 && Height(n) <= 0.0 &&
      Height(p) + Height(n) == rows[i].shear &&
      (p.Bar? <==> rows[i].shear >= 0.0) && (n.Bar? <==> !p.Bar?)
  {
  }

  /** Rendering one more coordinate appends its line to the text. */
  lemma RenderCoordsSnoc(cs: seq<Coord>, i: nat, str: real -> string)
    requires i < |cs|
    ensures RenderCoords(cs[..i + 1], str) == RenderCoords(cs[..i], str) + CoordLine(cs[i], str)
  {
    assert CoordLines(cs[..i + 1], str) == CoordLines(cs[..i], str) + [CoordLine(cs[i], str)];
    ConcatSnoc(CoordLines(cs[..i], str), CoordLine(cs[i], str));
  }

  /** Builds the two SFD coordinate lists row by row. */
  method SfdCoordinates(rows: seq<Row>, str: real -> string) returns (positiveCoords: string, negativeCoords: string)
    ensures positiveCoords == RenderCoords(PositiveSeries(rows), str)
    ensures negativeCoords == RenderCoords(NegativeSeries(rows), str)
  {
    positiveCoords, negativeCoords := "", "";
    ghost var pos, neg := PositiveSeries(rows), NegativeSeries(rows);
    for i := 0 to |rows|
      invariant positiveCoords == RenderCoords(pos[..i], str)
      invariant negativeCoords == RenderCoords(neg[..i], str)
    {
      var r := rows[i];
      var carried := CoordIndent + "(" + str(r.x) + ", " + str(r.shear) + ")\n";
      var zero := CoordIndent + "(" + str(r.x) + ", 0)\n";
      if r.shear >= 0.0 {
        positiveCoords := positiveCoords + carried;
        negativeCoords := negativeCoords + zero;
      } else {
        positiveCoords := positiveCoords + zero;
        negativeCoords := negativeCoords + carried;
      }
      assert pos[i] == PositiveEntry(r) && neg[i] == NegativeEntry(r);
      RenderCoordsSnoc(pos, i, str);
      RenderCoordsSnoc(neg, i, str);
    }
    assert pos[..|rows|] == pos;
    assert neg[..|rows|] == neg;
  }

  /** Builds the BMD coordinate list row by row. */
  method BmdCoordinates(rows: seq<Row>, str: real -> string) returns (coords: string)
    ensures coords == RenderCoords(MomentSeries(rows), str)
  {
    coords := "";
    ghost var series := MomentSeries(rows);
    for i := 0 to |rows|
      invariant coords == RenderCoords(series[..i], str)
    {
      var r := rows[i];
      var line := CoordIndent + "(" + str(r.x) + ", " + str(r.moment) + ")\n";
      coords := coords + line;
      RenderCoordsSnoc(series, i, str);
    }
    assert series[..|rows|] == series;
  }

  datatype AxisRange = AxisRange(xmin: real, xmax: real, ymin: real, ymax: real)

  /** The dashed line drawn along y = 0, from x = `from` to x = `to`. */
  datatype ZeroLine = ZeroLine(from: real, to: real)

  /**
   * The SFD axis reaches half a metre beyond the last position and exactly 10 kN
   * beyond the smallest and the largest shear.
   */
  function SfdAxis(rows: seq<Row>): (a: AxisRange)
    requires |rows| > 0
    ensures a.xmin == -0.5
    ensures forall i :: 0 <= i < |rows| ==> rows[i].x + 0.5 <= a.xmax && a.ymin + 10.0 <= rows[i].shear <= a.ymax - 10.0
    ensures exists i :: 0 <= i < |rows| && rows[i].x + 0.5 == a.xmax
    ensures exists i :: 0 <= i < |rows| && rows[i].shear - 10.0 == a.ymin
    ensures exists i :: 0 <= i < |rows| && rows[i].shear + 10.0 == a.ymax
  {
    assert forall i :: 0 <= i < |rows| ==> rows[i].shear == Get(rows[i], Shear);
    AxisRange(-0.5, BeamLength(rows) + 0.5, Min(rows, Shear) - 10.0, Max(rows, Shear) + 10.0)
  }

  /**
   * The BMD axis has the same x-range as the SFD axis, starts at -10 and ends
   * 20 kN·m above the largest moment.
   */
  function BmdAxis(rows: seq<Row>): (a: AxisRange)
    requires |rows| > 0
    ensures a.xmin == SfdAxis(rows).xmin && a.xmax == SfdAxis(rows).xmax && a.ymin == -10.0
    ensures forall i :: 0 <= i < |rows| ==> rows[i].moment + 20.0 <= a.ymax
    ensures exists i :: 0 <= i < |rows| && rows[i].moment + 20.0 == a.ymax
  {
    assert forall i :: 0 <= i < |rows| ==> rows[i].moment == Get(rows[i], Moment);
    AxisRange(-0.5, BeamLength(rows) + 0.5, -10.0, Max(rows, Moment) + 20.0)
  }

  /** The dashed zero line spans the x-range of both charts exactly. */
  function DashedZeroLine(rows: seq<Row>): (z: ZeroLine)
    requires |rows| > 0
    ensures z.from == SfdAxis(rows).xmin == BmdAxis(rows).xmin
    ensures z.to == SfdAxis(rows).xmax == BmdAxis(rows).xmax
    ensures forall i :: 0 <= i < |rows| ==> z.to > rows[i].x
  {
    ZeroLine(-0.5, BeamLength(rows) + 0.5)
  }

  /** The SFD y-range is the shear range widened by 10 kN on each side. */
  lemma SfdAxisWidensShearRange(rows: seq<Row>)
    requires |rows| > 0
    ensures SfdAxis(rows).ymin == Min(rows, Shear) - 10.0
    ensures SfdAxis(rows).ymax == Max(rows, Shear) + 10.0
    ensures SfdAxis(rows).xmax == BeamLength(rows) + 0.5
  {
    var a := SfdAxis(rows);
    var lo :| 0 <= lo < |rows| && rows[lo].shear - 10.0 == a.ymin;
    var hi :| 0 <= hi < |rows| && rows[hi].shear + 10.0 == a.ymax;
    assert Get(rows[lo], Shear) == rows[lo].shear && Get(rows[hi], Shear) == rows[hi].shear;
  }
}
