/**
 * The records of the testing application (excelexport/models.py): the
 * sample, the water-cooling system, the scale and load measurements, the
 * inspection report and the stored stress calculation, with the derived
 * quantities their properties compute.
 */
module Models {
  import opened Wrappers

  datatype Date = Date(year: int, month: nat, day: nat)

  datatype DateTime = DateTime(date: Date, hour: nat, minute: nat, second: nat)

  /** Batch header of a test campaign. */
  datatype InspectionReport = InspectionReport(date: Date, batchNumber: string, section: string,
                                               createdAt: DateTime)

  /** Identification and geometry of one steel sample. */
  datatype SampleParameters = SampleParameters(sampleNumber: string, heatNumber: string,
                                               mass: real, length: real)

  /** Inlet and outlet readings of the cooling water. */
  datatype WaterSystem = WaterSystem(pressureIn: real, pressureOut: real,
                                     inTemperature: real, outTemperature: real)

  /** Raw UTN scale and load readings as the operator enters them. */
  datatype ScaleLoadMeasurements = ScaleLoadMeasurements(utnScale: real,
                                                         yieldMain: real, yieldCounter: real,
                                                         tensileMain: real, tensileCounter: real)

  /**
   * One stored result of the stress calculator: the seven computed values,
   * the creation time the database stamps on it and the optional links to
   * the sample and the inspection report (held here by value).
   */
  datatype StressCalculation = StressCalculation(
    massPerMeter: real,
    crossSectionArea: real,
    yieldMachineReading: real,
    tensileMachineReading: real,
    yieldStress: real,
    tensileStress: real,
    divisionType: string,
    createdAt: Option<DateTime>,
    sampleParameters: Option<SampleParameters>,
    inspectionReport: Option<InspectionReport>)

  /** Outlet minus inlet temperature: positive when the water heats up. */
  function TemperatureDifference(w: WaterSystem): (d: real)
    ensures d > 0.0 <==> w.outTemperature > w.inTemperature
    ensures d == 0.0 <==> w.outTemperature == w.inTemperature
    ensures w.inTemperature + d == w.outTemperature
  {
    w.outTemperature - w.inTemperature
  }

  /** Inlet minus outlet pressure: the loss across the cooling system. */
  function PressureDrop(w: WaterSystem): (d: real)
    ensures d >= 0.0 <==> w.pressureIn >= w.pressureOut
    ensures w.pressureOut + d == w.pressureIn
  {
    w.pressureIn - w.pressureOut
  }

  /** Main-scale plus counter-part yield load (no scale multiplier). */
  function TotalYieldLoad(m: ScaleLoadMeasurements): (t: real)
    ensures t - m.yieldCounter == m.yieldMain
  {
    m.yieldMain + m.yieldCounter
  }

  /** Main-scale plus counter-part tensile load (no scale multiplier). */
  function TotalTensileLoad(m: ScaleLoadMeasurements): (t: real)
    ensures t - m.tensileCounter == m.tensileMain
  {
    m.tensileMain + m.tensileCounter
  }

  function Distance(a: real, b: real): (d: real)
    ensures d >= 0.0
    ensures d == 0.0 <==> a == b
    ensures d == a - b || d == b - a
  {
    if a >= b then a - b else b - a
  }

  /** `abs(main - counter)` for the yield readings. */
  function YieldLoadDifference(m: ScaleLoadMeasurements): (d: real)
    ensures d >= 0.0
    ensures d == 0.0 <==> m.yieldMain == m.yieldCounter
    ensures d == m.yieldMain - m.yieldCounter || d == m.yieldCounter - m.yieldMain
  {
    Distance(m.yieldMain, m.yieldCounter)
  }

  /** `abs(main - counter)` for the tensile readings. */
  function TensileLoadDifference(m: ScaleLoadMeasurements): (d: real)
    ensures d >= 0.0
    ensures d == 0.0 <==> m.tensileMain == m.tensileCounter
    ensures d == m.tensileMain - m.tensileCounter || d == m.tensileCounter - m.tensileMain
  {
    Distance(m.tensileMain, m.tensileCounter)
  }

  /**
   * For readings the model's validators would admit (all >= 0), the
   * difference never exceeds the total, and total and difference together
   * recover both readings.
   */
  lemma YieldTotalBoundsDifference(m: ScaleLoadMeasurements)
    requires m.yieldMain >= 0.0 && m.yieldCounter >= 0.0
    ensures YieldLoadDifference(m) <= TotalYieldLoad(m)
    ensures TotalYieldLoad(m) + YieldLoadDifference(m) == 2.0 * (if m.yieldMain >= m.yieldCounter then m.yieldMain else m.yieldCounter)
  {
  }

  lemma TensileTotalBoundsDifference(m: ScaleLoadMeasurements)
    requires m.tensileMain >= 0.0 && m.tensileCounter >= 0.0
    ensures TensileLoadDifference(m) <= TotalTensileLoad(m)
    ensures TotalTensileLoad(m) + TensileLoadDifference(m) == 2.0 * (if m.tensileMain >= m.tensileCounter then m.tensileMain else m.tensileCounter)
  {
  }
}
