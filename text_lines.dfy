/** Report text built as a sequence of lines appended one after the other. */
module TextLines {

  /** The text made of the given lines, in order. */
  function Concat(lines: seq<string>): string {
    if lines == [] then "" else Concat(lines[..|lines| - 1]) + lines[|lines| - 1]
  }

  /** Appending one line to the sequence appends it to the text. */
  lemma ConcatSnoc(lines: seq<string>, line: string)
    ensures Concat(lines + [line]) == Concat(lines) + line
  {
    assert (lines + [line])[..|lines|] == lines;
  }
}
