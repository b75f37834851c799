/**
 * The CSV export of excelexport/views_csv.py: a preamble with the latest
 * inspection header, a header row, one row per stress calculation (the
 * oldest 15), and, when there is at least one, a blank row and the Min,
 * Max and AVG rows over the non-zero values of each numeric column.
 */
module ViewsCsv {
  import opened Wrappers
  import opened Models
  import opened Statistics
  import opened Report

  const Title: string := "Final Inspection Report - Mechanical Properties"

  const ColumnTitles: seq<string> :=
    ["S. No", "Heat Number", "Time", "Mass (kg)", "Length (m)",
     "Mass/Meter (kg/m)", "Cross Sec Area (mm²)", "Calibrated Yield Load (kN)",
     "Yield Stress (N/mm²)", "Calibrated Tensile Load (kN)", "Tensile Stress (N/mm²)",
     "Elongation %", "Bend Test"]

  function HeaderRow(): (row: seq<Cell>)
    ensures |row| == RowWidth
  {
    seq(|ColumnTitles|, k requires 0 <= k < |ColumnTitles| => Text(ColumnTitles[k]))
  }

  /** Title, blank, Section / Lot No / Date of Rolling, blank. */
  function Preamble(latest: Option<InspectionReport>): seq<seq<Cell>>
  {
    var h := HeaderOf(latest);
    [[Text(Title)], [], [Text("Section:"), h.section], [Text("Lot No:"), h.lotNo],
     [Text("Date of Rolling:"), h.dateOfRolling], []]
  }

  /** Which of the three summary rows. */
  datatype Stat = MinStat | MaxStat | AvgStat

  function StatLabel(kind: Stat): string
  {
    match kind
    case MinStat => "Min"
    case MaxStat => "Max"
    case AvgStat => "AVG"
  }

  function StatCell(kind: Stat, values: seq<real>): Cell
  {
    var s := Summarize(values);
    match kind
    case MinStat => s.min
    case MaxStat => s.max
    case AvgStat => s.avg
  }

  /** `numeric_data`: the collected values of each numeric field, in field order. */
  function NumericData(records: seq<StressCalculation>): (data: seq<seq<real>>)
    ensures |data| == |NumericFields|
  {
    seq(|NumericFields|, k requires 0 <= k < |NumericFields| => CollectReadings(records, NumericFields[k]))
  }

  /** A summary row: label, two blanks, one statistic per field, two blanks. */
  function StatRow(kind: Stat, data: seq<seq<real>>): (row: seq<Cell>)
    requires |data| == |NumericFields|
    ensures |row| == RowWidth
  {
    [Text(StatLabel(kind)), Blank, Blank]
    + seq(|data|, k requires 0 <= k < |data| => StatCell(kind, data[k]))
    + [Blank, Blank]
  }

  /** The whole file as rows of cells. */
  function CsvDocument(records: seq<StressCalculation>, latest: Option<InspectionReport>): seq<seq<Cell>>
  {
    Preamble(latest) + [HeaderRow()] + Rows(records)
    + (if records == [] then []
       else [[], StatRow(MinStat, NumericData(records)), StatRow(MaxStat, NumericData(records)),
             StatRow(AvgStat, NumericData(records))])
  }

  /** Fixed rows before the data: title, blank, header fields, blank, column titles. */
  const DataStart: nat := 7

  /**
   * The layout of the file: preamble, column titles, one 13-cell row per
   * record numbered 1..n, and the four summary rows only when n > 0.
   */
  lemma CsvLayout(records: seq<StressCalculation>, latest: Option<InspectionReport>)
    ensures var doc := CsvDocument(records, latest);
            && |doc| == DataStart + |records| + (if records == [] then 0 else 4)
            && doc[0] == [Text(Title)] && doc[1] == [] && doc[5] == []
            && (latest.None? ==> doc[2][1] == Blank && doc[3][1] == Blank && doc[4][1] == Blank)
            && doc[6] == HeaderRow() && |doc[6]| == RowWidth
            && (forall i :: 0 <= i < |records| ==> doc[DataStart + i] == InspectionRow(i + 1, records[i]))
  {
  }

  /**
   * With at least one record, the summary block follows the data: a blank
   * row, then Min, Max and AVG rows of 13 cells each.
   */
  lemma CsvSummaryRows(records: seq<StressCalculation>, latest: Option<InspectionReport>)
    requires records != []
    ensures var doc := CsvDocument(records, latest);
            var n := DataStart + |records|;
            && doc[n] == []
            && doc[n + 1] == StatRow(MinStat, NumericData(records))
            && doc[n + 2] == StatRow(MaxStat, NumericData(records))
            && doc[n + 3] == StatRow(AvgStat, NumericData(records))
            && doc[n + 1][0] == Text("Min") && doc[n + 2][0] == Text("Max") && doc[n + 3][0] == Text("AVG")
  {
  }

  /** Cell `FirstNumeric + k` of a summary row is field `k`'s statistic. */
  lemma StatRowCell(kind: Stat, data: seq<seq<real>>, k: nat)
    requires |data| == |NumericFields| && k < |NumericFields|
    ensures StatRow(kind, data)[FirstNumeric + k] == StatCell(kind, data[k])
  {
  }

  /**
   * A statistic cell is blank exactly when no record has a non-zero value
   * for the field; otherwise AVG is the mean of the collected values and
   * Min <= AVG <= Max, Min and Max bounding every value.
   */
  lemma {:induction false} CsvStatCells(records: seq<StressCalculation>, k: nat)
    requires k < |NumericFields|
    ensures var f := NumericFields[k];
            var col := FirstNumeric + k;
            var lo := StatRow(MinStat, NumericData(records))[col];
            var hi := StatRow(MaxStat, NumericData(records))[col];
            var avg := StatRow(AvgStat, NumericData(records))[col];
            && (lo == Blank <==> forall i :: 0 <= i < |records| ==> Reading(records[i], f).None?)
            && (lo == Blank <==> hi == Blank) && (lo == Blank <==> avg == Blank)
            && (lo != Blank ==> lo.x <= avg.x <= hi.x)
            && (lo != Blank ==> avg == Fixed(Mean(CollectReadings(records, f)), 2))
            && (lo != Blank ==> forall i :: 0 <= i < |records| && Reading(records[i], f).Some? ==>
                                  lo.x <= Reading(records[i], f).value <= hi.x)
  {
    var f := NumericFields[k];
    var vs := CollectReadings(records, f);
    var data := NumericData(records);
    assert data[k] == vs;
    StatRowCell(MinStat, data, k);
    StatRowCell(MaxStat, data, k);
    StatRowCell(AvgStat, data, k);
    CollectReadingsEmpty(records, f);
    forall i | 0 <= i < |records| && Reading(records[i], f).Some?
      ensures Reading(records[i], f).value in vs
    {
      CollectReadingsComplete(records, f, i);
    }
  }

  /** One summary row built by appending a cell per field. */
  method BuildStatRow(kind: Stat, data: seq<seq<real>>) returns (row: seq<Cell>)
    requires |data| == |NumericFields|
    ensures row == StatRow(kind, data)
  {
    row := [Text(StatLabel(kind)), Blank, Blank];
    var k := 0;
    while k < |data|
      invariant 0 <= k <= |data|
      invariant row == [Text(StatLabel(kind)), Blank, Blank]
                       + seq(k, g requires 0 <= g < k => StatCell(kind, data[g]))
    {
      var cell := Blank;
      if data[k] != [] {
        var v := match kind
          case MinStat => Min(data[k])
          case MaxStat => Max(data[k])
          case AvgStat => Mean(data[k]);
        cell := Fixed(v, 2);
      }
      assert cell == StatCell(kind, data[k]);
      row := row + [cell];
      k := k + 1;
    }
    row := row + [Blank, Blank];
  }

  /** `numeric_data`, filled by one pass over the calculations. */
  method CollectNumericData(calcs: seq<StressCalculation>) returns (numeric: seq<seq<real>>)
    ensures numeric == NumericData(calcs)
  {
    numeric := seq(|NumericFields|, _ => []);
    var j := 0;
    while j < |calcs|
      invariant 0 <= j <= |calcs|
      invariant |numeric| == |NumericFields|
      invariant forall g :: 0 <= g < |NumericFields| ==> numeric[g] == CollectReadings(calcs[..j], NumericFields[g])
    {
      assert calcs[..j + 1][..j] == calcs[..j];
      var k := 0;
      while k < |NumericFields|
        invariant 0 <= k <= |NumericFields|
        invariant |numeric| == |NumericFields|
        invariant forall g :: 0 <= g < k ==> numeric[g] == CollectReadings(calcs[..j + 1], NumericFields[g])
        invariant forall g :: k <= g < |NumericFields| ==> numeric[g] == CollectReadings(calcs[..j], NumericFields[g])
      {
        var r := Reading(calcs[j], NumericFields[k]);
        if r.Some? {
          numeric := numeric[k := numeric[k] + [r.value]];
        }
        k := k + 1;
      }
      j := j + 1;
    }
    assert calcs[..j] == calcs;
  }

  /**
   * `mechanical_inspection_csv_export`: writes the rows one by one, exactly
   * as `CsvDocument` lays them out for the oldest 15 calculations.
   */
  method MechanicalInspectionCsvExport(store: seq<StressCalculation>, latest: Option<InspectionReport>)
    returns (rows: seq<seq<Cell>>)
    ensures rows == CsvDocument(OldestRecords(store), latest)
  {
    var calcs := OldestRecords(store);
    var header := HeaderOf(latest);
    rows := [];
    rows := rows + [[Text(Title)]];
    rows := rows + [[]];
    rows := rows + [[Text("Section:"), header.section]];
    rows := rows + [[Text("Lot No:"), header.lotNo]];
    rows := rows + [[Text("Date of Rolling:"), header.dateOfRolling]];
    rows := rows + [[]];
    rows := rows + [HeaderRow()];
    ghost var front := rows;
    assert front == Preamble(latest) + [HeaderRow()];

    var i := 0;
    while i < |calcs|
      invariant 0 <= i <= |calcs|
      invariant rows == front + Rows(calcs)[..i]
    {
      rows := rows + [InspectionRow(i + 1, calcs[i])];
      i := i + 1;
      assert Rows(calcs)[..i] == Rows(calcs)[..i - 1] + [Rows(calcs)[i - 1]];
    }
    assert Rows(calcs)[..i] == Rows(calcs);

    if |calcs| > 0 {
      rows := rows + [[]];
      var numeric := CollectNumericData(calcs);
      var minRow := BuildStatRow(MinStat, numeric);
      rows := rows + [minRow];
      var maxRow := BuildStatRow(MaxStat, numeric);
      rows := rows + [maxRow];
      var avgRow := BuildStatRow(AvgStat, numeric);
      rows := rows + [avgRow];
    }
  }
}
