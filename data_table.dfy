/**
 * The rows of the "Shear Force and Bending Moment Values Along the Beam" table:
 * one value line and one \hline line per data row, in row order.
 * The fixed-decimal renderings (one decimal for positions, two for forces and
 * moments) are the parameters `fmt1` and `fmt2`.
 */
module DataTable {
  import opened BeamData
  import opened TextLines

  const RowIndent := "        "

  /** "x & V & M \\" followed by a newline. */
  function ValueLine(r: Row, fmt1: real -> string, fmt2: real -> string): string {
    RowIndent + fmt1(r.x) + " & " + fmt2(r.shear) + " & " + fmt2(r.moment) + " \\\\\n"
  }

  const HLine := RowIndent + "\\hline\n"

  /**
   * The table lines for the rows, in emission order. Line 2i is the value line
   * of row i and line 2i+1 is an \hline: every row appears exactly once, in its
   * original order.
   */
  function TableLines(rows: seq<Row>, fmt1: real -> string, fmt2: real -> string): (lines: seq<string>)
    ensures |lines| == 2 * |rows|
    ensures forall i :: 0 <= i < |rows| ==>
      lines[2 * i] == ValueLine(rows[i], fmt1, fmt2) && lines[2 * i + 1] == HLine
  {
    if rows == [] then []
    else
      var prefix := rows[..|rows| - 1];
      assert forall i :: 0 <= i < |prefix| ==> prefix[i] == rows[i];
      TableLines(prefix, fmt1, fmt2) + [ValueLine(rows[|rows| - 1], fmt1, fmt2), HLine]
  }

  /** Appends the table lines row by row to the table text. */
  method EmitTableRows(rows: seq<Row>, fmt1: real -> string, fmt2: real -> string) returns (body: string)
    ensures body == Concat(TableLines(rows, fmt1, fmt2))
  {
    body := "";
    for i := 0 to |rows|
      invariant body == Concat(TableLines(rows[..i], fmt1, fmt2))
    {
      var r := rows[i];
      ghost var before := TableLines(rows[..i], fmt1, fmt2);
      var line := RowIndent + fmt1(r.x) + " & " + fmt2(r.shear) + " & " + fmt2(r.moment) + " \\\\\n";
      var rule := RowIndent + "\\hline\n";
      body := body + line;
      body := body + rule;
      assert rows[..i + 1][..i] == rows[..i];
      assert line == ValueLine(r, fmt1, fmt2) && rule == HLine;
      ghost var after := TableLines(rows[..i + 1], fmt1, fmt2);
      assert after == (before + [line]) + [rule];
      ConcatSnoc(before, line);
      ConcatSnoc(before + [line], rule);
    }
    assert rows[..|rows|] == rows;
  }
}
