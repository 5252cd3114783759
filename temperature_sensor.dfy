/**
 * PT100 resistance-temperature detector: the linear resistance law, its
 * inverse, and a reading disturbed by ageing drift and a bounded noise draw.
 */
module TemperatureSensor {
  import opened CLib

  /** Resistance at 0 °C, in ohms. */
  const R0: real := 100.0
  /** Temperature coefficient, per °C. */
  const Alpha: real := 0.00385
  /** Drift of the resistance, per year in service (0.5 %). */
  const DriftRate: real := 0.005
  /** Base error scaling the noise draw, in ohms. */
  const SensorError: real := 0.1
  /** Largest magnitude of the additive resistance noise, in ohms. */
  const NoiseBound: real := 0.01

  /** Resistance of the RTD at `temperature` °C. */
  function RtdResistance(temperature: real): (r: real)
    ensures temperature == 0.0 ==> r == R0
  {
    R0 * (1.0 + Alpha * temperature)
  }

  /** Temperature that the resistance law assigns to `resistance` (the conversion back to °C). */
  function RtdTemperature(resistance: real): (t: real)
    ensures resistance == R0 ==> t == 0.0
  {
    (resistance / R0 - 1.0) / Alpha
  }

  /** Converting a resistance back to a temperature undoes the resistance law. */
  lemma RtdRoundTrip(temperature: real, resistance: real)
    ensures RtdTemperature(RtdResistance(temperature)) == temperature
    ensures RtdResistance(RtdTemperature(resistance)) == resistance
  {
  }

  /** Because Alpha is positive the resistance law is strictly increasing. */
  lemma RtdResistanceStrictlyIncreasing(t1: real, t2: real)
    requires t1 < t2
    ensures RtdResistance(t1) < RtdResistance(t2)
  {
  }

  /** The additive resistance noise of one reading. */
  function RtdNoise(r: Draw): (n: real)
    ensures Abs(n) <= NoiseBound
    ensures r == Centre ==> n == 0.0
  {
    Offset(r) as real / 1000.0 * SensorError
  }

  /** The reading with the noise term removed: the drifted resistance converted back to °C. */
  function DriftedTemperature(actual: real, yearsInService: int): real
  {
    (1.0 + DriftRate * yearsInService as real) * actual + DriftRate * yearsInService as real / Alpha
  }

  /**
   * One RTD reading of `actual` °C by a sensor `yearsInService` years old,
   * with noise draw `r`.
   */
  function ReadRtdTemperature(actual: real, yearsInService: int, r: Draw): (t: real)
    ensures t == DriftedTemperature(actual, yearsInService) + RtdNoise(r) / (R0 * Alpha)
    ensures yearsInService == 0 && r == Centre ==> t == actual
    ensures Abs(t - DriftedTemperature(actual, yearsInService)) <= NoiseBound / (R0 * Alpha)
  {
    var ideal := RtdResistance(actual);
    var drift := 1.0 + DriftRate * yearsInService as real;
    var noise := RtdNoise(r);
    var measured := ideal * drift + noise;
    DriftTerms(actual, yearsInService as real, noise);
    RtdTemperature(measured)
  }

  /** The algebra behind ReadRtdTemperature: drift and noise pass through the inverse law linearly. */
  lemma DriftTerms(actual: real, years: real, noise: real)
    ensures RtdTemperature(RtdResistance(actual) * (1.0 + DriftRate * years) + noise)
         == (1.0 + DriftRate * years) * actual + DriftRate * years / Alpha + noise / (R0 * Alpha)
  {
    var d := DriftRate * years;
    var m := RtdResistance(actual) * (1.0 + d) + noise;
    assert m == R0 * (Alpha * actual * (1.0 + d) + d) + R0 + noise;
    assert m / R0 - 1.0 == Alpha * actual * (1.0 + d) + d + noise / R0;
    assert RtdTemperature(m) == (Alpha * actual * (1.0 + d) + d + noise / R0) / Alpha;
  }

  /**
   * The two years in service that the sensor module assumes: with the noise
   * draw centred the reading is 1.01·T + 0.01/Alpha, about 1.01·T + 2.6 °C.
   */
  lemma TwoYearReading(actual: real)
    ensures ReadRtdTemperature(actual, 2, Centre) == 1.01 * actual + 0.01 / Alpha
    ensures 2.597 < 0.01 / Alpha < 2.598
  {
  }
}
