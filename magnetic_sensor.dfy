/**
 * Magnetoresistive field sensor and 3-axis magnetometer: range limiting,
 * bounded nonlinearity and noise, and quantisation to the resolution step.
 */
module MagneticSensor {
  import opened CLib

  /** Magnetoresistive output per volt of supply per mT, in mV. */
  const MrSensitivity: real := 12.0
  /** Magnetoresistive range, ±mT. */
  const MrRange: real := 6.0
  /** Linearity error, % of output. */
  const MrLinearity: real := 0.2

  /** Magnetometer range, ±Gauss. */
  const MagRange: real := 8.0
  /** Magnetometer resolution, in mGauss. */
  const MagResolution: real := 0.5
  /** Magnetometer accuracy, % of the reading. */
  const MagAccuracy: real := 2.0
  /** The resolution step in Gauss. */
  const MagStep: real := MagResolution / 1000.0
  /** Number of axes. */
  const Axes := 3

  /** Noise-free magnetoresistive output, in V, for a field already limited to the range. */
  function MrIdeal(field: real, supply: real): real
  {
    supply * MrSensitivity * field / 1000.0
  }

  /**
   * Magnetoresistive output, in V: the field is limited to ±6 mT, then the
   * linear response is disturbed by a nonlinearity term (draw `r1`, at most
   * 0.02 % of the output) and a supply-scaled noise term (draw `r2`, at most
   * 1 % of the supply), in that order of drawing.
   */
  function MagnetoresistiveOutput(field: real, supply: real, r1: Draw, r2: Draw): (v: real)
    ensures var ideal := MrIdeal(Clamp(field, -MrRange, MrRange), supply);
      Abs(v - ideal) <= Abs(ideal) * 0.0002 + Abs(supply) * 0.01
    ensures r1 == Centre && r2 == Centre ==> v == MrIdeal(Clamp(field, -MrRange, MrRange), supply)
  {
    var limited := Clamp(field, -MrRange, MrRange);
    var output := MrIdeal(limited, supply);
    var nonlinearity := MrNonlinearity(output, r1);
    var noise := MrNoise(supply, r2);
    AbsTriangle(nonlinearity, noise);
    output + nonlinearity + noise
  }

  /** The nonlinearity term: at most 0.02 % of the output. */
  function MrNonlinearity(output: real, r: Draw): (e: real)
    ensures Abs(e) <= Abs(output) * 0.0002
    ensures r == Centre ==> e == 0.0
  {
    var k := Offset(r) as real / 1000.0 * MrLinearity / 100.0;
    ScaledBound(output, k, 0.0002);
    assert output * (Offset(r) as real) / 1000.0 * MrLinearity / 100.0 == output * k;
    output * (Offset(r) as real) / 1000.0 * MrLinearity / 100.0
  }

  /** The noise term: at most 1 % of the supply voltage. */
  function MrNoise(supply: real, r: Draw): (e: real)
    ensures Abs(e) <= Abs(supply) * 0.01
    ensures r == Centre ==> e == 0.0
  {
    var k := Offset(r) as real / 10000.0;
    ScaledBound(supply, k, 0.01);
    assert supply * (Offset(r) as real) / 10000.0 == supply * k;
    supply * (Offset(r) as real) / 10000.0
  }

  /** The range limit bounds the ideal output by 7.2 % of the supply. */
  lemma MrIdealBounded(field: real, supply: real)
    ensures Abs(MrIdeal(Clamp(field, -MrRange, MrRange), supply)) <= Abs(supply) * 0.072
  {
    var limited := Clamp(field, -MrRange, MrRange);
    ScaledBound(supply, MrSensitivity * limited / 1000.0, 0.072);
  }

  /**
   * One axis of the magnetometer: limited to ±8 Gauss, disturbed by an
   * error of at most 0.2 % of the limited field, rounded to the nearest
   * 0.0005 Gauss.
   */
  function AxisReading(actual: real, r: Draw): (m: real)
    ensures OnGrid(m, MagStep)
    ensures Abs(m - Clamp(actual, -MagRange, MagRange)) <= 0.002 * Abs(Clamp(actual, -MagRange, MagRange)) + MagStep / 2.0
  {
    var field := Clamp(actual, -MagRange, MagRange);
    var error := MagError(field, r);
    var m := Quantise(field + error, MagStep);
    AbsTriangle(m - (field + error), error);
    m
  }

  /** The measurement error of one axis: at most 0.2 % of the limited field. */
  function MagError(field: real, r: Draw): (e: real)
    ensures Abs(e) <= 0.002 * Abs(field)
    ensures r == Centre ==> e == 0.0
  {
    var k := Offset(r) as real / 1000.0 * MagAccuracy / 100.0;
    ScaledBound(field, k, 0.002);
    assert field * (Offset(r) as real) / 1000.0 * MagAccuracy / 100.0 == field * k;
    field * (Offset(r) as real) / 1000.0 * MagAccuracy / 100.0
  }

  /** A field of at most 8 Gauss in magnitude, with the draw centred, is read to within half a step. */
  lemma AxisReadingInRange(actual: real)
    requires -MagRange <= actual <= MagRange
    ensures Abs(AxisReading(actual, Centre) - actual) <= MagStep / 2.0
  {
  }

  /**
   * The three-axis reading written into `measured`. Axis i of the result
   * depends only on axis i of `actual` and draw i; `actual` is read before
   * axis i is written, so the two arrays may even be the same.
   */
  method ReadMagnetometer(actual: array<real>, measured: array<real>, draws: seq<Draw>)
    requires actual.Length >= Axes && measured.Length >= Axes && |draws| == Axes
    modifies measured
    ensures forall i :: 0 <= i < Axes ==> measured[i] == AxisReading(old(actual[i]), draws[i])
    ensures forall i :: Axes <= i < measured.Length ==> measured[i] == old(measured[i])
    ensures actual != measured ==> actual[..] == old(actual[..])
  {
    for i := 0 to Axes
      invariant forall k :: 0 <= k < i ==> measured[k] == AxisReading(old(actual[k]), draws[k])
      invariant forall k :: i <= k < Axes ==> actual[k] == old(actual[k])
      invariant forall k :: Axes <= k < measured.Length ==> measured[k] == old(measured[k])
      invariant actual != measured ==> actual[..] == old(actual[..])
    {
      var field := actual[i];
      if field > MagRange { field := MagRange; }
      if field < -MagRange { field := -MagRange; }
      var error := MagError(field, draws[i]);
      field := Quantise(field + error, MagStep);
      measured[i] := field;
    }
  }
}
