/**
 * Hall-effect field sensor, the current measurement built on it, and the
 * non-contact voltage detector.
 */
module ElectricalSensor {
  import opened CLib

  /** Hall output per mT, in mV. */
  const HallSensitivity: real := 5.0
  /** Hall output with no field, in V. */
  const HallOffset: real := 2.5
  /** Largest field the Hall sensor responds to, in mT. */
  const HallMaxField: real := 2000.0
  /** Largest magnitude of the Hall output noise, in V. */
  const HallNoiseBound: real := 0.01
  /** Field produced per ampere of current, in mT. */
  const FieldPerAmpere: real := 5.0

  /** Smallest voltage the detector can sense, in V. */
  const NcvdMinVoltage: real := 50.0
  /** Largest detection distance, in m. */
  const NcvdMaxDistance: real := 0.1
  /** Detection strength threshold. */
  const NcvdThreshold: real := 1.0

  /** The Hall output noise of one reading. */
  function HallNoise(r: Draw): (n: real)
    ensures Abs(n) <= HallNoiseBound
    ensures r == Centre ==> n == 0.0
  {
    Offset(r) as real / 10000.0
  }

  /** Noise-free Hall output for a field already limited to the sensor's range. */
  function HallIdeal(field: real): real
  {
    HallOffset + HallSensitivity * field / 1000.0
  }

  /**
   * Hall sensor output, in V, for a field in mT: fields above 2000 mT are
   * limited to 2000, with no lower limit.
   */
  function HallEffectOutput(field: real, r: Draw): (v: real)
    ensures field <= HallMaxField ==> v == HallIdeal(field) + HallNoise(r)
    ensures field > HallMaxField ==> v == HallIdeal(HallMaxField) + HallNoise(r)
    ensures v <= 12.51
  {
    var limited := if field > HallMaxField then HallMaxField else field;
    var output := HallOffset + (HallSensitivity * limited / 1000.0);
    output + HallNoise(r)
  }

  /** A current in A measured through the Hall sensor and converted back. */
  function MeasureCurrentHall(current: real, r: Draw): (measured: real)
    ensures FieldPerAmpere * current <= HallMaxField ==> measured == current + HallNoise(r) * 40.0
    ensures FieldPerAmpere * current <= HallMaxField && r == Centre ==> measured == current
    ensures FieldPerAmpere * current <= HallMaxField ==> Abs(measured - current) <= 0.4
    ensures FieldPerAmpere * current > HallMaxField ==> Abs(measured - HallMaxField / FieldPerAmpere) <= 0.4
  {
    var field := current * FieldPerAmpere;
    var hallVoltage := HallEffectOutput(field, r);
    (hallVoltage - HallOffset) * 1000.0 / (HallSensitivity * 5.0)
  }

  /**
   * Whether a live voltage is sensed at `distance` metres. Below 50 V or
   * beyond 0.1 m nothing is sensed; otherwise the inverse-square strength
   * decides. At distance zero the strength is infinite in the source's
   * floating point, so the voltage is sensed.
   */
  function DetectVoltagePresence(voltage: real, distance: real): (detected: bool)
    ensures voltage < NcvdMinVoltage || distance > NcvdMaxDistance ==> !detected
    ensures voltage >= NcvdMinVoltage && 0.0 <= distance <= NcvdMaxDistance ==> detected
  {
    if voltage < NcvdMinVoltage || distance > NcvdMaxDistance then false
    else if distance == 0.0 then true
    else
      var ratio := NcvdMaxDistance / distance;
      var strength := voltage * (ratio * ratio);
      assert distance > 0.0 ==> strength >= voltage by {
        if distance > 0.0 {
          StrengthAtLeastVoltage(voltage, ratio);
        }
      }
      strength > NcvdThreshold
  }

  /** Within the range the distance ratio is at least 1, so the strength is at least the voltage itself. */
  lemma StrengthAtLeastVoltage(voltage: real, ratio: real)
    requires voltage >= 0.0 && ratio >= 1.0
    ensures voltage * (ratio * ratio) >= voltage
  {
    ProductNonNegative(ratio - 1.0, ratio + 1.0);
    ProductNonNegative(voltage, ratio * ratio - 1.0);
  }

  /** The sensor module probes at half a metre, beyond the detector's reach, so it never senses anything. */
  lemma NothingSensedAtHalfMetre(voltage: real)
    ensures !DetectVoltagePresence(voltage, 0.5)
  {
  }
}
