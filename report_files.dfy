/**
 * File names and paths the report refers to: the beam image path embedded in
 * the introduction, and the auxiliary files of the typesetting run that are
 * cleaned up afterwards.
 */
module ReportFiles {

  /** The image path with every backslash turned into a forward slash. */
  function NormalizeImagePath(path: string): (r: string)
    ensures |r| == |path|
    ensures forall i :: 0 <= i < |path| ==> r[i] == (if path[i] == '\\' then '/' else path[i])
    ensures '\\' !in r
  {
    if path == [] then []
    else [if path[0] == '\\' then '/' else path[0]] + NormalizeImagePath(path[1..])
  }

  /** Normalizing an already normalized path changes nothing. */
  lemma {:induction false} NormalizeImagePathIdempotent(path: string)
    ensures NormalizeImagePath(NormalizeImagePath(path)) == NormalizeImagePath(path)
  {
    var once := NormalizeImagePath(path);
    var twice := NormalizeImagePath(once);
    assert |twice| == |once|;
    forall i | 0 <= i < |once|
      ensures twice[i] == once[i]
    {
      assert once[i] != '\\';
    }
  }

  /** The extensions of the auxiliary files removed after typesetting. */
  const AuxExtensions: seq<string> := [".aux", ".log", ".out", ".toc"]

  /** The names of the auxiliary files of the report called outputName, in cleanup order. */
  method AuxFileNames(outputName: string) returns (names: seq<string>)
    ensures |names| == |AuxExtensions|
    ensures forall i :: 0 <= i < |names| ==> names[i] == outputName + AuxExtensions[i]
  {
    names := [];
    for e := 0 to |AuxExtensions|
      invariant |names| == e
      invariant forall i :: 0 <= i < e ==> names[i] == outputName + AuxExtensions[i]
    {
      names := names + [outputName + AuxExtensions[e]];
    }
  }

  /**
   * The cleanup names are pairwise distinct, and none of them is the report's
   * markup file (.tex) or its final document (.pdf).
   */
  lemma AuxFilesSpareReport(outputName: string)
    ensures forall i, j :: 0 <= i < j < |AuxExtensions| ==>
      outputName + AuxExtensions[i] != outputName + AuxExtensions[j]
    ensures forall i :: 0 <= i < |AuxExtensions| ==>
      outputName + AuxExtensions[i] != outputName + ".tex" &&
      outputName + AuxExtensions[i] != outputName + ".pdf"
  {
    forall e1: string, e2: string | outputName + e1 == outputName + e2
      ensures e1 == e2
    {
      assert e1 == (outputName + e1)[|outputName|..];
      assert e2 == (outputName + e2)[|outputName|..];
    }
  }
}
