/**
 * The report generator object: it holds the input paths and the output name,
 * and, once the force table is loaded, the rows and the beam length.
 */
module Generator {
  import opened BeamData
  import Charts
  import Metrics

  class BeamReportGenerator {
    const excelPath: string
    const beamImagePath: string
    const outputName: string
    /** The loaded force table; empty until LoadData. */
    var data: seq<Row>
    /** The largest position in the table; 0 until LoadData. */
    var beamLength: real

    /** The table is loaded and the beam length derived from it. */
    ghost predicate Loaded()
      reads this
    {
      |data| > 0 && beamLength == BeamLength(data)
    }

    constructor (excelPath: string, beamImagePath: string, outputName: string := "Beam_Analysis_Report")
      ensures this.excelPath == excelPath && this.beamImagePath == beamImagePath && this.outputName == outputName
      ensures data == [] && beamLength == 0.0
    {
      this.excelPath := excelPath;
      this.beamImagePath := beamImagePath;
      this.outputName := outputName;
      data := [];
      beamLength := 0.0;
    }

    /**
     * Stores the rows read from the spreadsheet and sets the beam length to the
     * largest position: no row lies beyond it and some row lies on it.
     */
    method LoadData(sheet: seq<Row>)
      requires |sheet| > 0
      modifies this
      ensures data == sheet && beamLength == BeamLength(sheet)
      ensures Loaded()
      ensures forall i :: 0 <= i < |data| ==> data[i].x <= beamLength
      ensures exists i :: 0 <= i < |data| && data[i].x == beamLength
    {
      data := sheet;
      beamLength := BeamLength(sheet);
    }
  }

  /**
   * The charts and the conclusion read the stored beam length; once the table is
   * loaded it is the one they derive from the rows.
   */
  lemma LoadedBeamLengthDrivesReport(g: BeamReportGenerator)
    requires g.Loaded()
    ensures Charts.SfdAxis(g.data).xmax == g.beamLength + 0.5
    ensures Charts.BmdAxis(g.data).xmax == g.beamLength + 0.5
    ensures Charts.DashedZeroLine(g.data).to == g.beamLength + 0.5
    ensures Metrics.ConclusionSummary(g.data).maxNegativeShear.location == g.beamLength
    ensures Metrics.ConclusionSummary(g.data).maxMoment.location == g.beamLength / 2.0
  {
    Charts.SfdAxisWidensShearRange(g.data);
  }
}
