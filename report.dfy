/**
 * What the on-screen report (excelexport/views.py) and the CSV export
 * (excelexport/views_csv.py) share: the window of stress calculations they
 * cover, the inspection header, the 13 cells of one data row, the values
 * a column contributes to the statistics, and the min/max/average cells.
 */
module Report {
  import opened Wrappers
  import opened Models
  import opened Statistics

  /**
   * One report cell. `Blank` is the empty string `''`; `Fixed(x, p)` is
   * `f"{x:.pf}"`; `Clock` and `Day` are `strftime('%H:%M:%S')` and
   * `strftime('%Y-%m-%d')`. Rendering digits is not modelled.
   */
  datatype Cell = Blank | Text(s: string) | Serial(n: nat) | Fixed(x: real, places: nat)
                | Clock(t: DateTime) | Day(d: Date)

  /** Both reports take the oldest 15 calculations. */
  const ReportLimit: nat := 15

  /**
   * `StressCalculation.objects.order_by('created_at')[:15]`: the store is
   * append-only, so creation order is store order.
   */
  function OldestRecords(store: seq<StressCalculation>): (r: seq<StressCalculation>)
    ensures |r| == if |store| <= ReportLimit then |store| else ReportLimit
    ensures forall i :: 0 <= i < |r| ==> r[i] == store[i]
  {
    if |store| <= ReportLimit then store else store[..ReportLimit]
  }

  /** Section, lot number and rolling date of the latest inspection report. */
  datatype Header = Header(section: Cell, lotNo: Cell, dateOfRolling: Cell)

  function HeaderOf(latest: Option<InspectionReport>): (h: Header)
    ensures latest.None? ==> h == Header(Blank, Blank, Blank)
    ensures latest.Some? ==> h.section == Text(latest.value.section)
                             && h.lotNo == Text(latest.value.batchNumber)
                             && h.dateOfRolling == Day(latest.value.date)
  {
    match latest
    case None => Header(Blank, Blank, Blank)
    case Some(r) => Header(Text(r.section), Text(r.batchNumber), Day(r.date))
  }

  /** The eight numeric columns, in report order. */
  datatype Field = Mass | Length | MassPerMeter | CrossSectionArea
                 | CalibratedYieldLoad | YieldStress | CalibratedTensileLoad | TensileStress

  const NumericFields: seq<Field> :=
    [Mass, Length, MassPerMeter, CrossSectionArea, CalibratedYieldLoad, YieldStress,
     CalibratedTensileLoad, TensileStress]

  /** Cells per row: serial, heat number, time, eight numbers, elongation, bend test. */
  const RowWidth: nat := 13

  /** Column of the first numeric field. */
  const FirstNumeric: nat := 3

  /** Decimals each numeric column is printed with. */
  function Places(f: Field): nat
  {
    match f
    case Mass => 2
    case Length => 3
    case MassPerMeter => 4
    case CrossSectionArea => 2
    case CalibratedYieldLoad => 1
    case YieldStress => 2
    case CalibratedTensileLoad => 1
    case TensileStress => 2
  }

  /** The stored quantity behind a column; the sample's fields need a linked sample. */
  function Quantity(c: StressCalculation, f: Field): Option<real>
  {
    match f
    case Mass => if c.sampleParameters.Some? then Some(c.sampleParameters.value.mass) else None
    case Length => if c.sampleParameters.Some? then Some(c.sampleParameters.value.length) else None
    case MassPerMeter => Some(c.massPerMeter)
    case CrossSectionArea => Some(c.crossSectionArea)
    case CalibratedYieldLoad => Some(c.yieldMachineReading)
    case YieldStress => Some(c.yieldStress)
    case CalibratedTensileLoad => Some(c.tensileMachineReading)
    case TensileStress => Some(c.tensileStress)
  }

  /**
   * The quantity as the reports use it: `if sample and sample.mass` /
   * `if calc.field` drop a missing sample and a zero value alike.
   */
  function Reading(c: StressCalculation, f: Field): (r: Option<real>)
    ensures r.Some? <==> Quantity(c, f).Some? && Quantity(c, f).value != 0.0
    ensures r.Some? ==> r == Quantity(c, f)
  {
    var q := Quantity(c, f);
    if q.Some? && q.value != 0.0 then q else None
  }

  function MeasurementCell(c: StressCalculation, f: Field): Cell
  {
    match Reading(c, f)
    case None => Blank
    case Some(x) => Fixed(x, Places(f))
  }

  /** One data row: `i`, heat number, time, the eight numbers, two blanks. */
  function InspectionRow(serial: nat, c: StressCalculation): (row: seq<Cell>)
    ensures |row| == RowWidth
  {
    [Serial(serial),
     if c.sampleParameters.Some? then Text(c.sampleParameters.value.heatNumber) else Blank,
     if c.createdAt.Some? then Clock(c.createdAt.value) else Blank]
    + seq(|NumericFields|, k requires 0 <= k < |NumericFields| => MeasurementCell(c, NumericFields[k]))
    + [Blank, Blank]
  }

  /**
   * A numeric cell is blank exactly when its quantity is missing or zero,
   * and otherwise shows that quantity with the column's decimals.
   */
  lemma RowCells(serial: nat, c: StressCalculation, k: nat)
    requires k < |NumericFields|
    ensures InspectionRow(serial, c)[0] == Serial(serial)
    ensures InspectionRow(serial, c)[1] == if c.sampleParameters.Some? then Text(c.sampleParameters.value.heatNumber) else Blank
    ensures InspectionRow(serial, c)[2] == if c.createdAt.Some? then Clock(c.createdAt.value) else Blank
    ensures InspectionRow(serial, c)[FirstNumeric + k] == Blank <==> Reading(c, NumericFields[k]).None?
    ensures Reading(c, NumericFields[k]).Some? ==>
              InspectionRow(serial, c)[FirstNumeric + k] == Fixed(Reading(c, NumericFields[k]).value, Places(NumericFields[k]))
    ensures InspectionRow(serial, c)[RowWidth - 2] == Blank && InspectionRow(serial, c)[RowWidth - 1] == Blank
  {
  }

  /** The data rows, numbered from 1 in store order (`enumerate(..., 1)`). */
  function Rows(records: seq<StressCalculation>): (rows: seq<seq<Cell>>)
    ensures |rows| == |records|
    ensures forall i :: 0 <= i < |rows| ==> |rows[i]| == RowWidth && rows[i][0] == Serial(i + 1)
  {
    seq(|records|, i requires 0 <= i < |records| => InspectionRow(i + 1, records[i]))
  }

  /** `numeric_data[field]`: the field's readings, in record order. */
  function CollectReadings(records: seq<StressCalculation>, f: Field): (vs: seq<real>)
    ensures |vs| <= |records|
    ensures forall k :: 0 <= k < |vs| ==> vs[k] != 0.0
  {
    if records == [] then []
    else
      var last := records[|records| - 1];
      CollectReadings(records[..|records| - 1], f)
      + (if Reading(last, f).Some? then [Reading(last, f).value] else [])
  }

  /** A field collects nothing exactly when every record's cell for it is blank. */
  lemma {:induction false} CollectReadingsEmpty(records: seq<StressCalculation>, f: Field)
    ensures CollectReadings(records, f) == [] <==> forall i :: 0 <= i < |records| ==> Reading(records[i], f).None?
  {
    if records != [] {
      var front := records[..|records| - 1];
      CollectReadingsEmpty(front, f);
      assert forall i :: 0 <= i < |front| ==> front[i] == records[i];
    }
  }

  /** Every reading of a record appears among the collected values. */
  lemma {:induction false} CollectReadingsComplete(records: seq<StressCalculation>, f: Field, i: nat)
    requires i < |records| && Reading(records[i], f).Some?
    ensures Reading(records[i], f).value in CollectReadings(records, f)
  {
    if i < |records| - 1 {
      var front := records[..|records| - 1];
      CollectReadingsComplete(front, f, i);
    }
  }

  /** Positions of the records that have a reading for `f`, in increasing order. */
  function ReadingIndices(records: seq<StressCalculation>, f: Field): (idx: seq<nat>)
    ensures forall k :: 0 <= k < |idx| ==> idx[k] < |records| && Reading(records[idx[k]], f).Some?
    ensures forall k, l :: 0 <= k < l < |idx| ==> idx[k] < idx[l]
    ensures forall i :: 0 <= i < |records| && Reading(records[i], f).Some? ==> i in idx
  {
    if records == [] then []
    else
      var n := |records| - 1;
      var front := records[..n];
      assert forall i :: 0 <= i < n ==> front[i] == records[i];
      ReadingIndices(front, f) + (if Reading(records[n], f).Some? then [n] else [])
  }

  /**
   * The collected values are exactly the records' readings, one per record
   * that has one, in record order.
   */
  lemma {:induction false} CollectReadingsInOrder(records: seq<StressCalculation>, f: Field)
    ensures var idx := ReadingIndices(records, f);
            && |CollectReadings(records, f)| == |idx|
            && forall k :: 0 <= k < |idx| ==> Some(CollectReadings(records, f)[k]) == Reading(records[idx[k]], f)
  {
    if records != [] {
      var n := |records| - 1;
      var front := records[..n];
      CollectReadingsInOrder(front, f);
      assert forall i :: 0 <= i < n ==> front[i] == records[i];
    }
  }

  /** Every collected value is the reading of some record. */
  lemma CollectReadingsSound(records: seq<StressCalculation>, f: Field, k: nat)
    requires k < |CollectReadings(records, f)|
    ensures exists i :: 0 <= i < |records| && Reading(records[i], f) == Some(CollectReadings(records, f)[k])
  {
    CollectReadingsInOrder(records, f);
    var i := ReadingIndices(records, f)[k];
    assert Reading(records[i], f) == Some(CollectReadings(records, f)[k]);
  }

  /** The three summary cells of one field. */
  datatype FieldStats = FieldStats(min: Cell, max: Cell, avg: Cell)

  /**
   * `f"{min(values):.2f}"`, `max`, `sum/len`, or three blanks when the
   * field collected nothing.
   */
  function Summarize(values: seq<real>): (r: FieldStats)
    ensures values == [] <==> r.min == Blank
    ensures values == [] <==> r.max == Blank
    ensures values == [] <==> r.avg == Blank
    ensures values != [] ==> r.min.Fixed? && r.max.Fixed? && r.avg.Fixed?
    ensures values != [] ==> r.min.places == 2 && r.max.places == 2 && r.avg.places == 2
    ensures values != [] ==> r.min.x in values && r.max.x in values
    ensures values != [] ==> r.avg == Fixed(Mean(values), 2)
    ensures values != [] ==> r.min.x <= r.avg.x <= r.max.x
    ensures values != [] ==> forall k :: 0 <= k < |values| ==> r.min.x <= values[k] <= r.max.x
  {
    if values == [] then FieldStats(Blank, Blank, Blank)
    else
      MinMeanMax(values);
      FieldStats(Fixed(Min(values), 2), Fixed(Max(values), 2), Fixed(Mean(values), 2))
  }
}
