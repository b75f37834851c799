/**
 * The calibration library of excelexport/calclation.py: one cubic curve per
 * load-cell division (10, 25, 50 and 100 kgf), the conversion of two
 * machine readings into yield and tensile stress, and the derivation and
 * selection steps of the console driver.
 */
module Calibration {
  import opened Wrappers
  import Models

  /** The four load-cell divisions, one per calibration curve. */
  datatype Division = Kgf10 | Kgf25 | Kgf50 | Kgf100

  /** Coefficients of `A + B*x + C*x*x + D*x*x*x`. */
  datatype Coefficients = Coefficients(a: real, b: real, c: real, d: real)

  /** Why a computation stops: Python's ZeroDivisionError, or a rejected scale. */
  datatype Fault = ZeroDivision | UnsupportedScale

  /** Steel factor dividing mass per metre to give the cross-section area. */
  const SteelFactor: real := 0.00785

  /** The full-scale value in kgf that names a division. */
  function ScaleOf(d: Division): real
  {
    match d
    case Kgf10 => 10.0
    case Kgf25 => 25.0
    case Kgf50 => 50.0
    case Kgf100 => 100.0
  }

  /** The literal calibration constants of each division function. */
  function CurveOf(d: Division): Coefficients
  {
    match d
    case Kgf10 => Coefficients(-0.481989, 0.0117226, -0.000000685762, 0.000000000160764)
    case Kgf25 => Coefficients(0.0744259, 0.0108840, -0.000000211336, 0.0000000000284359)
    case Kgf50 => Coefficients(0.125491, 0.0111779, -0.000000134602, 0.00000000000757921)
    case Kgf100 => Coefficients(0.814388, 0.0117947, -0.000000126474, 0.00000000000303105)
  }

  /** The curve value at reading `x`, written as the source writes it. */
  function Cubic(k: Coefficients, x: real): real
  {
    k.a + k.b * x + k.c * x * x + k.d * x * x * x
  }

  /** Independent nested (Horner) form of the same polynomial. */
  function Horner(k: Coefficients, x: real): real
  {
    k.a + x * (k.b + x * (k.c + x * k.d))
  }

  lemma CubicIsHorner(k: Coefficients, x: real)
    ensures Cubic(k, x) == Horner(k, x)
  {
  }

  /**
   * `division_<n>kgf(yield, tensile, area)`: each reading goes through the
   * division's curve, is multiplied by 1000 and divided by the area; a zero
   * area is a ZeroDivisionError, never a value. The pair is (yield, tensile).
   */
  function DivisionStress(d: Division, yieldReading: real, tensileReading: real, area: real)
    : (r: Result<(real, real), Fault>)
    ensures r.Success? <==> area != 0.0
    ensures r.Failure? ==> r.error == ZeroDivision
    ensures r.Success? ==> r.value.0 * area == 1000.0 * Cubic(CurveOf(d), yieldReading)
    ensures r.Success? ==> r.value.1 * area == 1000.0 * Cubic(CurveOf(d), tensileReading)
  {
    if area == 0.0 then Failure(ZeroDivision)
    else
      var fy := Cubic(CurveOf(d), yieldReading);
      var ft := Cubic(CurveOf(d), tensileReading);
      Success((1000.0 * fy / area, 1000.0 * ft / area))
  }

  /** The constants of every division, as written in the source. */
  lemma DivisionCoefficients()
    ensures CurveOf(Kgf10) == Coefficients(-4.81989 / 10.0, 1.17226 / 100.0, -6.85762 / 10000000.0, 1.60764 / 10000000000.0)
    ensures CurveOf(Kgf25) == Coefficients(7.44259 / 100.0, 1.08840 / 100.0, -2.11336 / 10000000.0, 2.84359 / 100000000000.0)
    ensures CurveOf(Kgf50) == Coefficients(1.25491 / 10.0, 1.11779 / 100.0, -1.34602 / 10000000.0, 7.57921 / 1000000000000.0)
    ensures CurveOf(Kgf100) == Coefficients(8.14388 / 10.0, 1.17947 / 100.0, -1.26474 / 10000000.0, 3.03105 / 1000000000000.0)
  {
  }

  /** At a zero reading the stress is `1000 * A / area`. */
  lemma ZeroReadingStress(d: Division, area: real)
    requires area != 0.0
    ensures DivisionStress(d, 0.0, 0.0, area) == Success((1000.0 * CurveOf(d).a / area, 1000.0 * CurveOf(d).a / area))
  {
  }

  /** Yield and tensile share the curve: equal readings give equal stresses. */
  lemma EqualReadingsEqualStresses(d: Division, x: real, area: real)
    requires area != 0.0
    ensures DivisionStress(d, x, x, area).value.0 == DivisionStress(d, x, x, area).value.1
  {
  }

  /** Swapping the two readings swaps the two stresses. */
  lemma SwapReadings(d: Division, x: real, y: real, area: real)
    requires area != 0.0
    ensures DivisionStress(d, y, x, area).value == (DivisionStress(d, x, y, area).value.1, DivisionStress(d, x, y, area).value.0)
  {
  }

  /** Geometry and machine readings derived from the operator's inputs. */
  datatype Derived = Derived(massPerMeter: real, crossSectionArea: real,
                             yieldReading: real, tensileReading: real)

  /** `main + utn_scale * counter`: the combined machine reading. */
  function MachineReading(main: real, scale: real, counter: real): (r: real)
    ensures r - main == scale * counter
  {
    main + scale * counter
  }

  /**
   * The derivation both callers run first: `mass / length` (a zero length
   * raises ZeroDivisionError here), then `/ 0.00785`, then the two machine
   * readings.
   */
  function Derive(mass: real, length: real, scale: real,
                  yieldMain: real, yieldCounter: real,
                  tensileMain: real, tensileCounter: real): (r: Option<Derived>)
    ensures r.Some? <==> length != 0.0
    ensures r.Some? ==> r.value.massPerMeter * length == mass
    ensures r.Some? ==> r.value.crossSectionArea * SteelFactor == r.value.massPerMeter
    ensures r.Some? ==> (r.value.crossSectionArea == 0.0 <==> mass == 0.0)
    ensures r.Some? ==> r.value.yieldReading == MachineReading(yieldMain, scale, yieldCounter)
    ensures r.Some? ==> r.value.tensileReading == MachineReading(tensileMain, scale, tensileCounter)
  {
    if length == 0.0 then None
    else
      var massPerMeter := mass / length;
      var area := massPerMeter / SteelFactor;
      Some(Derived(massPerMeter, area,
                   MachineReading(yieldMain, scale, yieldCounter),
                   MachineReading(tensileMain, scale, tensileCounter)))
  }

  /** The console driver's `if utn_scale == 10 ... elif ... else` chain. */
  function SelectByChain(scale: real): (r: Option<Division>)
    ensures r.Some? ==> ScaleOf(r.value) == scale
  {
    if scale == 10.0 then Some(Kgf10)
    else if scale == 25.0 then Some(Kgf25)
    else if scale == 50.0 then Some(Kgf50)
    else if scale == 100.0 then Some(Kgf100)
    else None
  }

  /** Every division is selected by its own scale value and no other. */
  lemma SelectionRoundTrip(d: Division)
    ensures SelectByChain(ScaleOf(d)) == Some(d)
  {
  }

  /** The chain rejects exactly the values outside {10, 25, 50, 100}. */
  lemma SelectionRejects(scale: real)
    ensures SelectByChain(scale).None? <==> scale !in {10.0, 25.0, 50.0, 100.0}
  {
  }

  /** What the console driver ends with once its inputs are read. */
  datatype DriverOutcome =
    | Computed(derived: Derived, division: Division, yieldStress: real, tensileStress: real)
    | Stopped(fault: Fault)

  /**
   * Lines 104-133 of the console driver: counters are read as integers,
   * the derivation runs first, then the scale chain, then the division
   * function of the chosen curve.
   */
  function DriverRun(mass: real, length: real, utnScale: real,
                     yieldMain: real, yieldCounter: int,
                     tensileMain: real, tensileCounter: int): (r: DriverOutcome)
    ensures length == 0.0 ==> r == Stopped(ZeroDivision)
    ensures length != 0.0 && SelectByChain(utnScale).None? ==> r == Stopped(UnsupportedScale)
    ensures length != 0.0 && SelectByChain(utnScale).Some? && mass == 0.0 ==> r == Stopped(ZeroDivision)
    ensures r.Computed? <==> length != 0.0 && mass != 0.0 && utnScale in {10.0, 25.0, 50.0, 100.0}
    ensures r.Computed? ==> ScaleOf(r.division) == utnScale
    ensures r.Computed? ==> Derive(mass, length, utnScale, yieldMain, yieldCounter as real,
                                   tensileMain, tensileCounter as real) == Some(r.derived)
    ensures r.Computed? ==> r.derived.yieldReading == yieldMain + utnScale * yieldCounter as real
    ensures r.Computed? ==> r.derived.tensileReading == tensileMain + utnScale * tensileCounter as real
    ensures r.Computed? ==> DivisionStress(r.division, r.derived.yieldReading, r.derived.tensileReading,
                                          r.derived.crossSectionArea) == Success((r.yieldStress, r.tensileStress))
  {
    match Derive(mass, length, utnScale, yieldMain, yieldCounter as real, tensileMain, tensileCounter as real)
    case None => Stopped(ZeroDivision)
    case Some(g) =>
      match SelectByChain(utnScale)
      case None => Stopped(UnsupportedScale)
      case Some(d) =>
        match DivisionStress(d, g.yieldReading, g.tensileReading, g.crossSectionArea)
        case Failure(f) => Stopped(f)
        case Success(s) => Computed(g, d, s.0, s.1)
  }

  /**
   * The models' "total load" (`main + counter`) is not the calculator's
   * machine reading (`main + scale * counter`): they agree only when the
   * counter is zero or the scale is one.
   */
  lemma TotalLoadIsNotMachineReading(m: Models.ScaleLoadMeasurements)
    ensures Models.TotalYieldLoad(m) == MachineReading(m.yieldMain, m.utnScale, m.yieldCounter)
            <==> m.yieldCounter == 0.0 || m.utnScale == 1.0
  {
    assert MachineReading(m.yieldMain, m.utnScale, m.yieldCounter) - Models.TotalYieldLoad(m)
        == (m.utnScale - 1.0) * m.yieldCounter;
  }
}
