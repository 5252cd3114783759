/**
 * Photodiode light sensor and infrared proximity sensor.
 */
module OpticalSensor {
  import opened CLib

  /** Photodiode responsivity, in A/W. */
  const PhotoSensitivity: real := 0.5
  /** Dark current, in A (2 nA). */
  const DarkCurrent: real := 2.0e-9
  /** Lux per W/m² in the source's approximate conversion. */
  const LuxPerIrradiance: real := 683.0

  /** Nearest distance the proximity sensor reports, in m. */
  const ProxMinDistance: real := 0.05
  /** Farthest distance the proximity sensor reports, in m. */
  const ProxMaxDistance: real := 1.5
  /** Proximity accuracy, as a fraction of the distance. */
  const ProxAccuracy: real := 0.05

  /** Noise-free photodiode current, in A: the photocurrent plus the dark current. */
  function PhotoIdeal(lux: real): real
  {
    PhotoSensitivity * (lux / LuxPerIrradiance) * 1.0e-6 + DarkCurrent
  }

  /** The photodiode noise: at most a tenth of the dark current, 0.2 nA. */
  function PhotoNoise(r: Draw): (n: real)
    ensures Abs(n) <= 2.0e-10
    ensures r == Centre ==> n == 0.0
  {
    Offset(r) as real / 1000.0 * DarkCurrent
  }

  /** Photodiode output current, in A, at `lux`. */
  function PhotodiodeCurrent(lux: real, r: Draw): (current: real)
    ensures current == PhotoIdeal(lux) + PhotoNoise(r)
    ensures Abs(current - PhotoIdeal(lux)) <= 2.0e-10
    ensures lux >= 0.0 ==> current > 0.0
  {
    var irradiance := lux / LuxPerIrradiance;
    var photocurrent := PhotoSensitivity * irradiance * 1.0e-6;
    photocurrent + DarkCurrent + PhotoNoise(r)
  }

  /** With the noise draw fixed, more light always gives more current. */
  lemma PhotodiodeCurrentIncreasing(lux1: real, lux2: real, r: Draw)
    requires lux1 < lux2
    ensures PhotodiodeCurrent(lux1, r) < PhotodiodeCurrent(lux2, r)
  {
  }

  /** The proximity noise at distance `d`: at most 0.5 % of the distance. */
  function ProxNoise(d: real, r: Draw): (n: real)
    requires d >= 0.0
    ensures Abs(n) <= 0.005 * d
    ensures r == Centre ==> n == 0.0
  {
    var k := Offset(r) as real / 1000.0 * ProxAccuracy;
    ScaledBound(d, k, 0.005);
    assert d * (Offset(r) as real) / 1000.0 * ProxAccuracy == d * k;
    d * (Offset(r) as real) / 1000.0 * ProxAccuracy
  }

  /**
   * A proximity reading, in m: exactly the nearer limit for closer objects,
   * exactly the farther limit for more distant ones, and otherwise the
   * distance within 0.5 %.
   */
  function ReadProximity(actual: real, r: Draw): (d: real)
    ensures actual < ProxMinDistance ==> d == ProxMinDistance
    ensures actual > ProxMaxDistance ==> d == ProxMaxDistance
    ensures ProxMinDistance <= actual <= ProxMaxDistance ==> Abs(d - actual) <= 0.005 * actual
    ensures ProxMinDistance <= actual <= ProxMaxDistance && r == Centre ==> d == actual
  {
    if actual < ProxMinDistance then ProxMinDistance
    else if actual > ProxMaxDistance then ProxMaxDistance
    else actual + ProxNoise(actual, r)
  }
}
