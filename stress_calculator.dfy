/**
 * The stress pipeline of excelexport/stress_calculator.py: derive geometry
 * and machine readings, look the scale up in the table of division
 * functions, convert the readings to stresses, append one record to the
 * store and report the calculated values, or report the first error as a
 * fixed message.
 */
module StressCalculator {
  import opened Wrappers
  import opened NumberText
  import opened Models
  import opened Calibration

  /** The `division_functions` table, keyed by scale value. */
  const DivisionFunctions: map<real, Division> :=
    map[10.0 := Kgf10, 25.0 := Kgf25, 50.0 := Kgf50, 100.0 := Kgf100]

  /** The table and the console driver's if/elif chain choose the same curve. */
  lemma TableMatchesChain(scale: real)
    ensures scale in DivisionFunctions <==> SelectByChain(scale).Some?
    ensures scale in DivisionFunctions ==> DivisionFunctions[scale] == SelectByChain(scale).value
  {
  }

  /** The `calculated_values` of a successful call. */
  datatype CalculatedValues = CalculatedValues(
    massPerMeter: real,
    crossSectionArea: real,
    yieldMachineReading: real,
    tensileMachineReading: real,
    yieldStress: real,
    tensileStress: real,
    divisionType: string)

  const DivisionByZeroMessage: string := "Division by zero. Check your input values."

  /** `f"Invalid input - {e}"` for the ValueError raised on an unknown scale. */
  function InvalidScaleMessage(scale: Number): string
  {
    "Invalid input - Invalid UTN scale value: " + Str(scale) + ". Must be 10, 25, 50, or 100"
  }

  /** `f"Division {utn_scale}kgf"`: the scale as Python prints it. */
  function DivisionLabel(scale: Number): string
  {
    "Division " + Str(scale) + "kgf"
  }

  /** A call with an `int` scale and a call with a `float` scale label differently. */
  lemma LabelsOfIntAndFloatScales()
    ensures DivisionLabel(Int(25)) == "Division 25kgf"
    ensures DivisionLabel(Float(50.0)) == "Division 50.0kgf"
    ensures DivisionLabel(Float(50.0)) != DivisionLabel(Int(50))
  {
    assert NatText(25) == "25" by { assert NatText(2) == "2"; }
    assert NatText(50) == "50" by { assert NatText(5) == "5"; }
    WholeFloatText(50);
    assert |DivisionLabel(Float(50.0))| != |DivisionLabel(Int(50))|;
  }

  /**
   * The pure part of `calculate_and_store_stress`: the calculated values,
   * or the message of the first failure, in the order the source meets
   * them (zero length, unknown scale, zero cross-section area).
   */
  function CalculateStress(mass: real, length: real, utnScale: Number,
                           yieldMain: real, yieldCounter: real,
                           tensileMain: real, tensileCounter: real): (r: Result<CalculatedValues, string>)
    ensures length == 0.0 ==> r == Failure(DivisionByZeroMessage)
    ensures length != 0.0 && Value(utnScale) !in DivisionFunctions ==> r == Failure(InvalidScaleMessage(utnScale))
    ensures length != 0.0 && Value(utnScale) in DivisionFunctions && mass == 0.0 ==> r == Failure(DivisionByZeroMessage)
    ensures r.Success? <==> length != 0.0 && mass != 0.0 && Value(utnScale) in {10.0, 25.0, 50.0, 100.0}
    ensures r.Success? ==> r.value.massPerMeter * length == mass
    ensures r.Success? ==> r.value.crossSectionArea * SteelFactor == r.value.massPerMeter
    ensures r.Success? ==> r.value.yieldMachineReading == yieldMain + Value(utnScale) * yieldCounter
    ensures r.Success? ==> r.value.tensileMachineReading == tensileMain + Value(utnScale) * tensileCounter
    ensures r.Success? ==> r.value.divisionType == DivisionLabel(utnScale)

  {
    match Derive(mass, length, Value(utnScale), yieldMain, yieldCounter, tensileMain, tensileCounter)
    case None => Failure(DivisionByZeroMessage)
    case Some(g) =>
      if Value(utnScale) !in DivisionFunctions then Failure(InvalidScaleMessage(utnScale))
      else
        match DivisionStress(DivisionFunctions[Value(utnScale)], g.yieldReading, g.tensileReading, g.crossSectionArea)
        case Failure(_) => Failure(DivisionByZeroMessage)
        case Success(s) =>
          Success(CalculatedValues(g.massPerMeter, g.crossSectionArea, g.yieldReading, g.tensileReading,
                                   s.0, s.1, DivisionLabel(utnScale)))
  }

  /** The stresses of `v` are those of curve `d` at `v`'s readings and area. */
  predicate FitsCurve(v: CalculatedValues, d: Division)
  {
    && v.crossSectionArea != 0.0
    && v.yieldStress * v.crossSectionArea == 1000.0 * Cubic(CurveOf(d), v.yieldMachineReading)
    && v.tensileStress * v.crossSectionArea == 1000.0 * Cubic(CurveOf(d), v.tensileMachineReading)
  }

  /** On success the two stresses are those of the curve keyed by the scale. */
  lemma {:induction false} CalculatedStressesFitCurve(mass: real, length: real, utnScale: Number,
                                                      yieldMain: real, yieldCounter: real,
                                                      tensileMain: real, tensileCounter: real)
    requires CalculateStress(mass, length, utnScale, yieldMain, yieldCounter, tensileMain, tensileCounter).Success?
    ensures Value(utnScale) in DivisionFunctions
    ensures FitsCurve(CalculateStress(mass, length, utnScale, yieldMain, yieldCounter, tensileMain, tensileCounter).value,
                      DivisionFunctions[Value(utnScale)])
  {
    var g := Derive(mass, length, Value(utnScale), yieldMain, yieldCounter, tensileMain, tensileCounter).value;
    var d := DivisionFunctions[Value(utnScale)];
    var s := DivisionStress(d, g.yieldReading, g.tensileReading, g.crossSectionArea);
    assert s.Success?;
    var v := CalculateStress(mass, length, utnScale, yieldMain, yieldCounter, tensileMain, tensileCounter).value;
    assert v.yieldStress == s.value.0 && v.tensileStress == s.value.1;
    assert v.crossSectionArea == g.crossSectionArea;
  }

  /** A zero length is reported as a division by zero whatever the scale. */
  lemma ZeroLengthWinsOverScale(mass: real, s1: Number, s2: Number, ym: real, yc: real, tm: real, tc: real)
    ensures CalculateStress(mass, 0.0, s1, ym, yc, tm, tc) == CalculateStress(mass, 0.0, s2, ym, yc, tm, tc)
    ensures CalculateStress(mass, 0.0, s1, ym, yc, tm, tc).Failure?
  {
  }

  /**
   * A zero mass is only met inside the division function, after the scale
   * check: with an unknown scale the scale error is the one reported.
   */
  lemma ScaleCheckPrecedesZeroArea(length: real, s: Number, ym: real, yc: real, tm: real, tc: real)
    requires length != 0.0 && Value(s) !in {10.0, 25.0, 50.0, 100.0}
    ensures CalculateStress(0.0, length, s, ym, yc, tm, tc) == Failure(InvalidScaleMessage(s))
    ensures CalculateStress(0.0, length, s, ym, yc, tm, tc) != Failure(DivisionByZeroMessage)
  {
    assert |InvalidScaleMessage(s)| > |DivisionByZeroMessage|;
  }

  /** The curve used is the one keyed by the scale: scale 50 gives the 50 kgf curve. */
  lemma FiftyUsesFiftyCurve(mass: real, length: real, ym: real, yc: real, tm: real, tc: real)
    requires mass != 0.0 && length != 0.0
    ensures var r := CalculateStress(mass, length, Float(50.0), ym, yc, tm, tc);
            r.Success? && FitsCurve(r.value, Kgf50)
  {
    CalculatedStressesFitCurve(mass, length, Float(50.0), ym, yc, tm, tc);
  }

  /** The record `objects.create` stores for a successful calculation. */
  function RecordOf(v: CalculatedValues, now: DateTime, sample: Option<SampleParameters>,
                    report: Option<InspectionReport>): StressCalculation
  {
    StressCalculation(v.massPerMeter, v.crossSectionArea, v.yieldMachineReading, v.tensileMachineReading,
                      v.yieldStress, v.tensileStress, v.divisionType, Some(now), sample, report)
  }

  /** The seven computed fields of a stored record. */
  function ValuesOf(c: StressCalculation): CalculatedValues
  {
    CalculatedValues(c.massPerMeter, c.crossSectionArea, c.yieldMachineReading, c.tensileMachineReading,
                     c.yieldStress, c.tensileStress, c.divisionType)
  }

  /** The stored record carries exactly the returned calculated values. */
  lemma StoredRecordMatchesValues(v: CalculatedValues, now: DateTime, sample: Option<SampleParameters>,
                                  report: Option<InspectionReport>)
    ensures ValuesOf(RecordOf(v, now, sample, report)) == v
    ensures RecordOf(v, now, sample, report).createdAt == Some(now)
  {
  }

  /** What a stored record says about its own numbers: some curve produced them. */
  ghost predicate Consistent(c: StressCalculation)
  {
    && c.crossSectionArea * SteelFactor == c.massPerMeter
    && c.createdAt.Some?
    && exists d: Division :: FitsCurve(ValuesOf(c), d)
  }

  /** The result dictionary of `calculate_and_store_stress`. */
  datatype CalculationReply =
    | Stored(record: StressCalculation, values: CalculatedValues)
    | Failed(error: string)

  /** The table of stress calculations, in creation order. */
  class StressStore {
    var records: seq<StressCalculation>

    ghost predicate Valid()
      reads this
    {
      forall k :: 0 <= k < |records| ==> Consistent(records[k])
    }

    constructor ()
      ensures Valid() && records == []
    {
      records := [];
    }

    /**
     * `calculate_and_store_stress`: on success exactly one record is
     * appended and returned with its values; on any failure the store is
     * unchanged. `now` is the creation time the database assigns.
     */
    method CalculateAndStoreStress(mass: real, length: real, utnScale: Number,
                                   yieldMain: real, yieldCounter: real,
                                   tensileMain: real, tensileCounter: real,
                                   sample: Option<SampleParameters>, report: Option<InspectionReport>,
                                   now: DateTime) returns (reply: CalculationReply)
      requires Valid()
      modifies this
      ensures Valid()
      ensures var r := CalculateStress(mass, length, utnScale, yieldMain, yieldCounter, tensileMain, tensileCounter);
              && (r.Failure? ==> reply == Failed(r.error) && records == old(records))
              && (r.Success? ==> reply == Stored(RecordOf(r.value, now, sample, report), r.value)
                                 && records == old(records) + [reply.record])
    {
      var r := CalculateStress(mass, length, utnScale, yieldMain, yieldCounter, tensileMain, tensileCounter);
      if r.Failure? {
        return Failed(r.error);
      }
      var record := RecordOf(r.value, now, sample, report);
      CalculatedStressesFitCurve(mass, length, utnScale, yieldMain, yieldCounter, tensileMain, tensileCounter);
      assert FitsCurve(ValuesOf(record), DivisionFunctions[Value(utnScale)]);
      records := records + [record];
      reply := Stored(record, r.value);
    }
  }
}
