# Beam analysis report generator: a Dafny model

`BeamReportGenerator` (code.py) reads a force table for a beam from a spreadsheet. Each row
of the table gives a position `x` (m), a shear force (kN) and a bending moment (kN·m). The
generator writes a LaTeX report from it: an introduction with the beam image and the beam
length, the data table with a "Data Interpretation" list, a shear force diagram (SFD) and a
bending moment diagram (BMD) drawn with pgfplots, and a conclusion table. The report is then
typeset with pdflatex.

This project models the part of the generator that derives data:

- `BeamData`: the table rows, the column statistics `max()`, `min()`, `idxmax()` and
  `idxmin()`, and the beam length. `idxmax()` and `idxmin()` return the first row that holds
  the extreme.
- `Metrics`: the "Data Interpretation" figures, including the zero-shear location, and the
  conclusion's "Summary of Critical Values" table.
- `TextLines`: the report text as lines appended in order, shared by the table and the charts.
- `Charts`: the SFD split into a positive and a negative coordinate series, the BMD series,
  the coordinate text built row by row, the axis ranges and the dashed zero line.
- `DataTable`: the table lines emitted row by row.
- `ReportFiles`: image-path normalisation and the names of the auxiliary files removed
  after typesetting.
- `Generator`: the generator object, whose `LoadData` sets `data` and `beamLength`.

Python's `float` is modelled as Dafny's exact `real`. Turning a number into text (`str()`,
`:.1f`, `:.2f`) is passed in as a function parameter (`str`, `fmt1`, `fmt2`). In the
coordinate lines and the table rows, the text around each number is modelled character for
character, so those lines do not depend on how digits are printed. The derivations take the
loaded rows as a parameter, `rows`, instead of reading `self.data`.
`Generator.BeamReportGenerator.Loaded` ties the object's `beamLength` to `BeamLength(data)`,
and `Generator.LoadedBeamLengthDrivesReport` shows the charts and the conclusion then use it.

Two behaviours of the code are worth knowing; the model follows the code:

- An empty sheet is not rejected when loading. `max()` then gives NaN, and `idxmax()` raises
  an error later.
- The conclusion table does not reuse the located extremes. It places the largest positive
  shear at x = 0.0, the largest negative shear at the beam length, and the largest moment at
  half the beam length (`Metrics.ConclusionSummary`). `Metrics.ConclusionLocationsCanDiffer`
  shows a table on which these positions differ from the "Data Interpretation" ones.

## Model

| member | source | states |
|---|---|---|
| `BeamData.Max` | code.py:331 | The column maximum is at least every row's value and equals some row's value. |
| `BeamData.Min` | code.py:332 | The column minimum is at most every row's value and equals some row's value. |
| `BeamData.IdxMax` | code.py:331 | `idxmax()` is a valid row index. No row holds more than that row. Every earlier row holds strictly less, so it is the first row holding the maximum. |
| `BeamData.IdxMin` | code.py:332 | `idxmin()` is a valid row index. No row holds less than that row. Every earlier row holds strictly more, so it is the first row holding the minimum. |
| `BeamData.IdxMaxIsFirstMax` | code.py:331-333 | The row `idxmax()` returns holds `max()`, and it is the only row that is the first to hold it. |
| `BeamData.IdxMinIsFirstMin` | code.py:332 | The row `idxmin()` returns holds `min()`, and it is the only row that is the first to hold it. |
| `BeamData.BeamLength` | code.py:36 | The beam length is at least every row's `x` and equals the `x` of some row. |
| `Metrics.FirstZeroShear` | code.py:334 | Gives the index of the first row whose shear is exactly 0. Gives None exactly when no row has shear 0. |
| `Metrics.ZeroShearLocation` | code.py:334 | The zero-shear location is the `x` of the first row with shear exactly 0. It is "N/A" (None) if and only if no row has shear 0, and is never interpolated. |
| `Metrics.Interpret` | code.py:331-334 | The "Data Interpretation" list. Max shear, min shear and max moment are true bounds of their columns and are held by some row. Each reported position is the `x` of the first row that holds the value. The zero-shear location is "N/A" exactly when no row has shear 0, and otherwise the `x` of the first such row. |
| `Metrics.FirstAtIsUnique` | code.py:331-333 | A "first row holding the value" position is unique, so a later tied row is never reported. |
| `Metrics.TiedMaximumReportsEarlierRow` | code.py:331-334 | On three rows that all have shear 50, max and min shear are reported at the first row, x = 0. The max moment is at x = 2. The zero-shear location is N/A. |
| `Metrics.ExactZeroIsReported` | code.py:334 | A row at x = 2.5 with shear exactly 0 gives zero-shear location 2.5. |
| `Metrics.ConclusionSummary` | code.py:565-569 | The "Summary of Critical Values" table. Its values are the true max shear, min shear and max moment. Their locations are fixed at 0.0, the beam length and half the beam length, whatever the data says. |
| `Metrics.ConclusionValuesAgree` | code.py:565-569 | The conclusion's three values equal the list's max shear, min shear and max moment. Its three locations depend only on the beam length. |
| `Metrics.ConclusionLocationsCanDiffer` | code.py:565-569 | On a concrete table, each conclusion location (0.0, beam length, half beam length) differs from the position of the row that actually holds the extreme. |
| `Charts.PositiveSeries` | code.py:355-364 | The "Positive Shear" series has one entry per row, in row order, at the row's `x`, and no entry is below 0. |
| `Charts.NegativeSeries` | code.py:355-364 | The "Negative Shear" series has one entry per row, in row order, at the row's `x`, and no entry is above 0. |
| `Charts.SfdSeriesSplitShear` | code.py:355-364 | Both SFD series have one entry per row, in row order, at the row's `x`. The positive entry is ≥ 0 and the negative entry is ≤ 0. Their heights sum to the row's shear. Exactly one of the two carries the shear: the positive one when shear ≥ 0. |
| `Charts.SfdCoordinates` | code.py:352-364 | The two coordinate texts built row by row are the renderings of the positive and negative series, one line per row in row order. Each line is `Charts.CoordLine`: a 12-space indent, then `(x, y)`, or `(x, 0)` in the slot that does not carry the shear, then a newline. |
| `Charts.MomentSeries` | code.py:460-463 | The BMD series has one bar per row, in row order, holding that row's `x` and moment. |
| `Charts.BmdCoordinates` | code.py:459-463 | The BMD coordinate text built row by row is the rendering of the moment series, one line per row in order. Each line is `Charts.CoordLine`: a 12-space indent, then `(x, moment)`, then a newline. |
| `Charts.SfdAxis` | code.py:387-390 | SFD axis: xmin = -0.5, and xmax is exactly 0.5 beyond the largest `x`. Every shear lies between ymin + 10 and ymax - 10, and some row reaches each bound. |
| `Charts.SfdAxisWidensShearRange` | code.py:388-390 | The SFD y-range is exactly [min shear - 10, max shear + 10], and xmax is the beam length + 0.5. |
| `Charts.BmdAxis` | code.py:481-484 | BMD axis: same x-range as the SFD axis, and ymin = -10. ymax is exactly 20 above the largest moment, so it is at least every moment + 20. |
| `Charts.DashedZeroLine` | code.py:427 | The dashed zero line (also drawn at code.py:513) runs from the charts' xmin to their xmax and ends beyond every row's `x`. |
| `DataTable.TableLines` | code.py:313-320 | The table has 2·n lines for n rows. Line 2i is row i's value line `x & V & M \\` (`DataTable.ValueLine`) and line 2i+1 is `\hline`, so each row appears once, in its original order. |
| `DataTable.EmitTableRows` | code.py:313-320 | The text appended row by row is exactly the concatenation of those table lines. |
| `ReportFiles.NormalizeImagePath` | code.py:214 | The normalised path has the same length. Every `\` becomes `/` and every other character is unchanged, so no `\` remains. |
| `ReportFiles.NormalizeImagePathIdempotent` | code.py:214 | Normalising a normalised path changes nothing. |
| `ReportFiles.AuxFileNames` | code.py:680-683 | One name per auxiliary extension, in order: the output name followed by `.aux`, `.log`, `.out` and `.toc`. |
| `ReportFiles.AuxFilesSpareReport` | code.py:680-683 | The cleanup names are pairwise distinct. None is the report's `.tex` file (code.py:640) or its `.pdf` (code.py:659). |
| `Generator.BeamReportGenerator.constructor` | code.py:12-25 | Stores the two paths and the output name, which defaults to "Beam_Analysis_Report". Starts with no data and beam length 0. |
| `Generator.BeamReportGenerator.LoadData` | code.py:27-39 | Stores the loaded rows. Sets the beam length to their largest `x`: no row lies beyond it and some row lies on it. |
| `Generator.LoadedBeamLengthDrivesReport` | code.py:388 | Once loaded, the stored beam length is the one both charts' xmax (code.py:388, 482), the zero line (code.py:427, 513) and the conclusion's locations (code.py:567-569) use: beam length + 0.5, beam length and beam length / 2. |

## Left out

- Reading the spreadsheet (`pd.read_excel`) and looking up columns by name: the model starts from the loaded rows.
- An empty or NaN-holding sheet: every derivation that takes a column extreme requires at least one row. On an empty sheet the code gives NaN for `max()` and raises in `idxmax()`. NaN comparisons are not modelled.
- Number-to-text (`str()` of a float, `:.1f`, `:.2f`): these are function parameters, so the digits printed are not specified.
- The `xtick` lists (code.py:391, 485): a comma-joined `str()` of every `x`, which is number formatting only.
- The constant LaTeX text: the preamble, title page, table of contents, introduction prose, table header and footer, chart options, "observations" bullets and conclusion prose. The model does not assemble the full sections. The title page's date comes from the wall clock and is not modelled.
- The text around the reported figures is not modelled, only the figures as reals. This covers the introduction's "Total Length" bullet (code.py:254), the "Data Interpretation" bullets (code.py:331-334), the axis options (code.py:388-390, 482-484), the dashed zero line commands (code.py:427, 513) and the conclusion table rows (code.py:565-569).
- The BMD observation bullets at code.py:525-526 print half the beam length and the largest moment. These are the same quantities as `Metrics.ConclusionSummary`'s moment line, so they are not modelled again.
- `max_shear = abs().max()` (code.py:542): it is computed but never used in the output.
- Writing the `.tex` file, the two pdflatex runs and their exit-code warnings, the check that the PDF exists, the removal of auxiliary files, and `main`'s input-file checks: all are file-system and process I/O. `ReportFiles.AuxFileNames` gives only the names, without `os.path.join` of the output directory.
- Progress and warning messages printed to the console.
- Floating-point rounding: positions, forces and moments are exact reals. So `beam_length + 0.5`, `min() - 10`, `max() + 10`, `max() + 20` and `beam_length / 2` (code.py:388-390, 427, 482-484, 513, 569) are computed without rounding. In float64, `min() - 10` and `max() + 10` round, so the margin of `Charts.SfdAxis` is not always exactly 10: for a shear of 0.1, (0.1 - 10) + 10 is 0.09999999999999964. Once a shear's magnitude reaches 2^57, adding 10 leaves it unchanged, so the shear sits on the axis bound.
