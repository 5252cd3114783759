/**
 * Electrochemical gas sensor: a baseline current, a linear response to the
 * target gas, interference from the other six gases through an asymmetric
 * cross-sensitivity matrix, a bounded noise draw, the conversion back to a
 * quantised, non-negative concentration and a temperature correction.
 */
module ChemicalSensor {
  import opened CLib

  /** Sensor current per ppm, in nA. */
  const Sensitivity: real := 20.0
  /** Baseline current with no gas present, in nA. */
  const ZeroCurrent: real := 5.0
  /** Concentration resolution, in ppm. */
  const Resolution: real := 0.1
  /** Largest magnitude of the current noise, in nA: Sensitivity · Resolution. */
  const NoiseBound: real := 2.0

  /** Gas identities; row and column `g - 1` of the matrix belong to gas `g`. */
  const GasCO := 1
  const GasH2S := 2
  const GasSO2 := 3
  const GasNO2 := 4
  const GasCl2 := 5
  const GasNH3 := 6
  const GasO2 := 7
  const GasCount := 7

  predicate IsGas(gas: int) { 1 <= gas <= GasCount }

  /** Row `g - 1`: how strongly each gas (column) disturbs the sensor for gas `g`. */
  const CrossSensitivity: seq<seq<real>> := [
    [ 1.00,  0.05, 0.00, -0.10,  0.00, 0.00, 0.00],  // CO
    [ 0.00,  1.00, 0.10,  0.00, -0.20, 0.00, 0.00],  // H2S
    [ 0.00,  0.00, 1.00,  0.15,  0.00, 0.00, 0.00],  // SO2
    [-0.05,  0.00, 0.00,  1.00,  0.00, 0.00, 0.00],  // NO2
    [ 0.00, -0.10, 0.00,  0.00,  1.00, 0.00, 0.00],  // Cl2
    [ 0.00,  0.00, 0.00,  0.00,  0.00, 1.00, 0.00],  // NH3
    [ 0.00,  0.00, 0.00,  0.00,  0.00, 0.00, 1.00]   // O2
  ]

  /** Entry of the matrix for target gas `gas` and interfering gas index `j`. */
  function Cross(gas: int, j: int): real
    requires IsGas(gas) && 0 <= j < GasCount
  {
    CrossSensitivity[gas - 1][j]
  }

  /** Every gas disturbs its own sensor with weight exactly 1; the matrix is not symmetric. */
  lemma CrossSensitivityShape()
    ensures |CrossSensitivity| == GasCount
    ensures forall g :: 0 <= g < GasCount ==> |CrossSensitivity[g]| == GasCount
    ensures forall g :: 0 <= g < GasCount ==> CrossSensitivity[g][g] == 1.0
    ensures Cross(GasCO, 3) != Cross(GasNO2, 0)
  {
  }

  /** What interfering gas `j` adds to the current of the sensor for `gas`: nothing for the target's own column. */
  function Interference(gas: int, interfering: seq<real>, j: int): real
    requires IsGas(gas) && 0 <= j < GasCount <= |interfering|
  {
    if j != gas - 1 then interfering[j] * Sensitivity * Cross(gas, j) else 0.0
  }

  /** Interference summed over the first `n` gases, in loop order; with no interfering gas present the cross terms vanish. */
  function CrossSum(gas: int, interfering: seq<real>, n: nat): (sum: real)
    requires IsGas(gas) && n <= GasCount <= |interfering|
    ensures (forall j :: 0 <= j < n ==> interfering[j] == 0.0) ==> sum == 0.0
  {
    if n == 0 then 0.0 else CrossSum(gas, interfering, n - 1) + Interference(gas, interfering, n - 1)
  }

  /** The current noise of one reading. */
  function EcNoise(r: Draw): (n: real)
    ensures Abs(n) <= NoiseBound
    ensures r == Centre ==> n == 0.0
  {
    Offset(r) as real / 100.0 * Sensitivity * Resolution
  }

  /**
   * The sensor current, in nA, for `concentration` ppm of `gas` amid
   * `interfering` concentrations: within the noise bound of the noiseless
   * current, and without interference the baseline plus the linear response
   * plus noise.
   */
  function EcCurrent(gas: int, concentration: real, interfering: seq<real>, r: Draw): (current: real)
    requires IsGas(gas) && GasCount <= |interfering|
    ensures Abs(current - (ZeroCurrent + concentration * Sensitivity + CrossSum(gas, interfering, GasCount))) <= NoiseBound
    ensures (forall j :: 0 <= j < GasCount ==> interfering[j] == 0.0) ==>
              current == ZeroCurrent + Sensitivity * concentration + EcNoise(r)
  {
    ZeroCurrent + concentration * Sensitivity + CrossSum(gas, interfering, GasCount) + EcNoise(r)
  }

  /** The sensor current, accumulated over the seven gases as the loop of the source does. */
  method EcSensorCurrent(gas: int, concentration: real, interfering: array<real>, r: Draw)
    returns (current: real)
    requires IsGas(gas) && GasCount <= interfering.Length
    ensures current == EcCurrent(gas, concentration, interfering[..], r)
  {
    current := ZeroCurrent + concentration * Sensitivity;
    for i := 0 to GasCount
      invariant current == ZeroCurrent + concentration * Sensitivity + CrossSum(gas, interfering[..], i)
    {
      if i != gas - 1 {
        current := current + interfering[i] * Sensitivity * CrossSensitivity[gas - 1][i];
      }
    }
    current := current + EcNoise(r);
  }

  /** Changing one interfering concentration changes only that gas's own term, by its weighted change. */
  lemma InterferenceUpdate(gas: int, interfering: seq<real>, j: int, v: real, k: int)
    requires IsGas(gas) && GasCount <= |interfering| && 0 <= j < GasCount && 0 <= k < GasCount
    ensures Interference(gas, interfering[j := v], k)
         == Interference(gas, interfering, k)
            + (if j == k && j != gas - 1 then (v - interfering[j]) * Sensitivity * Cross(gas, j) else 0.0)
  {
    if j == k && j != gas - 1 {
      var a, c := interfering[j], Cross(gas, j);
      assert v * Sensitivity * c == a * Sensitivity * c + (v - a) * Sensitivity * c;
    }
  }

  /** Changing one interfering concentration moves the partial sum by that gas's weighted change. */
  lemma {:induction false} CrossSumUpdate(gas: int, interfering: seq<real>, j: int, v: real, n: nat)
    requires IsGas(gas) && n <= GasCount <= |interfering| && 0 <= j < GasCount
    ensures CrossSum(gas, interfering[j := v], n)
         == CrossSum(gas, interfering, n)
            + (if j < n && j != gas - 1 then (v - interfering[j]) * Sensitivity * Cross(gas, j) else 0.0)
  {
    if n > 0 {
      CrossSumUpdate(gas, interfering, j, v, n - 1);
      InterferenceUpdate(gas, interfering, j, v, n - 1);
    }
  }

  /**
   * Each interfering gas j other than the target adds exactly
   * concentration · Sensitivity · Cross(gas, j) to the current; the target's own column is skipped.
   */
  lemma InterferentContribution(gas: int, concentration: real, interfering: seq<real>, j: int, v: real, r: Draw)
    requires IsGas(gas) && GasCount <= |interfering| && 0 <= j < GasCount
    ensures j != gas - 1 ==>
      EcCurrent(gas, concentration, interfering[j := v], r)
        == EcCurrent(gas, concentration, interfering, r) + (v - interfering[j]) * Sensitivity * Cross(gas, j)
    ensures j == gas - 1 ==>
      EcCurrent(gas, concentration, interfering[j := v], r) == EcCurrent(gas, concentration, interfering, r)
  {
    CrossSumUpdate(gas, interfering, j, v, GasCount);
  }

  /**
   * The concentration, in ppm, that a sensor current stands for: the linear
   * law inverted, rounded to the resolution and floored at zero. The gas type
   * does not enter the conversion.
   */
  function CurrentToConcentration(current: real, gas: int): (c: real)
    ensures c >= 0.0
    ensures OnGrid(c, Resolution)
    ensures (current - ZeroCurrent) / Sensitivity < 0.0 ==> c == 0.0
    ensures (current - ZeroCurrent) / Sensitivity >= 0.0 ==>
      Abs(c - (current - ZeroCurrent) / Sensitivity) <= Resolution / 2.0
  {
    var concentration := (current - ZeroCurrent) / Sensitivity;
    var quantised := Quantise(concentration, Resolution);
    if quantised > 0.0 then quantised else 0.0
  }

  /**
   * The round trip of the electrochemical model: with no interference and
   * the noise draw centred, a non-negative concentration comes back rounded
   * to the nearest 0.1 ppm.
   */
  lemma ConcentrationRoundTrip(concentration: real, interfering: seq<real>)
    requires GasCount <= |interfering|
    requires forall j :: 0 <= j < GasCount ==> interfering[j] == 0.0
    requires concentration >= 0.0
    ensures CurrentToConcentration(EcCurrent(GasCO, concentration, interfering, Centre), GasCO)
         == Quantise(concentration, Resolution)
    ensures Abs(CurrentToConcentration(EcCurrent(GasCO, concentration, interfering, Centre), GasCO) - concentration)
         <= Resolution / 2.0
  {
  }

  /** With noise, a non-negative concentration comes back within 0.15 ppm: 0.1 of noise, 0.05 of rounding. */
  lemma ConcentrationRoundTripWithNoise(gas: int, concentration: real, interfering: seq<real>, r: Draw)
    requires IsGas(gas) && GasCount <= |interfering|
    requires forall j :: 0 <= j < GasCount ==> interfering[j] == 0.0
    requires concentration >= 0.0
    ensures Abs(CurrentToConcentration(EcCurrent(gas, concentration, interfering, r), gas) - concentration)
         <= Resolution + Resolution / 2.0
  {
    var current := EcCurrent(gas, concentration, interfering, r);
    assert (current - ZeroCurrent) / Sensitivity == concentration + EcNoise(r) / Sensitivity;
  }

  /** Temperature correction: 0.2 % per °C away from the 20 °C calibration point. */
  function ApplyTemperatureEffect(concentration: real, temperature: real): (c: real)
    ensures temperature == 20.0 ==> c == concentration
    ensures temperature == 25.0 ==> c == 1.01 * concentration
    ensures concentration >= 0.0 && temperature >= 20.0 ==> c >= concentration
    ensures concentration >= 0.0 && temperature <= 20.0 ==> c <= concentration
  {
    var factor := 1.0 + (temperature - 20.0) * 0.002;
    assert concentration * factor == concentration + concentration * (temperature - 20.0) * 0.002;
    // the correction has the sign of temperature - 20 when the concentration is non-negative
    assert concentration >= 0.0 && temperature >= 20.0 ==> concentration * (temperature - 20.0) >= 0.0 by {
      if concentration >= 0.0 && temperature >= 20.0 {
        ProductNonNegative(concentration, temperature - 20.0);
      }
    }
    assert concentration >= 0.0 && temperature <= 20.0 ==> concentration * (20.0 - temperature) >= 0.0 by {
      if concentration >= 0.0 && temperature <= 20.0 {
        ProductNonNegative(concentration, 20.0 - temperature);
      }
    }
    concentration * factor
  }
}
