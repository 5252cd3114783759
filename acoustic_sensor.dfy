/**
 * MEMS microphone: sound pressure to output voltage with bounded noise,
 * and the piecewise frequency response.
 */
module AcousticSensor {
  import opened CLib

  /** Lower cut-off frequency, in Hz. */
  const LowFreq: real := 100.0
  /** Upper edge of the flat band, in Hz. */
  const HighFreq: real := 10000.0
  /** Resonance frequency, in Hz. */
  const ResonantFreq: real := 15000.0

  /**
   * Output voltage, in V, for a sound pressure in Pa. The source computes
   * its two constants with `pow`: `sensitivity` stands for 10^(-38/20) V/Pa
   * and `snrRatio` for 10^(65/20); both are taken as given positive values.
   * The noise is at most the output divided by the SNR ratio.
   */
  function MicOutputVoltage(pressure: real, sensitivity: real, snrRatio: real, r: Draw): (v: real)
    requires sensitivity > 0.0 && snrRatio > 0.0
    ensures Abs(v - pressure * sensitivity) <= Abs(pressure * sensitivity) / snrRatio
    ensures r == Centre ==> v == pressure * sensitivity
  {
    var output := pressure * sensitivity;
    var noiseVoltage := output / snrRatio;
    var noise := Offset(r) as real / 100.0 * noiseVoltage;
    ScaledBound(noiseVoltage, Offset(r) as real / 100.0, 1.0);
    assert Abs(noiseVoltage) == Abs(output) / snrRatio;
    output + noise
  }

  /**
   * The gain the microphone applies at `frequency` Hz: rising linearly to 1
   * below 100 Hz, flat at 1 up to 10 kHz, rising towards 1.5 up to the
   * 15 kHz resonance, then decaying. `decay` stands for
   * exp(-(frequency - 15000) / 1000), which the model does not compute:
   * above the resonance it lies in (0, 1] and at the resonance it is 1.
   */
  function FrequencyGain(frequency: real, decay: real): (gain: real)
    requires frequency >= ResonantFreq ==> 0.0 < decay <= 1.0
    requires frequency == ResonantFreq ==> decay == 1.0
    ensures LowFreq <= frequency <= HighFreq ==> gain == 1.0
    ensures frequency < LowFreq ==> gain == frequency / LowFreq
    ensures HighFreq < frequency < ResonantFreq ==> 1.0 < gain < 1.5
    ensures frequency >= ResonantFreq ==> 0.0 < gain <= 1.5
    ensures frequency == ResonantFreq ==> gain == 1.5
  {
    if frequency < LowFreq then frequency / LowFreq
    else if frequency > HighFreq then
      if frequency < ResonantFreq then 1.0 + 0.5 * (frequency - HighFreq) / (ResonantFreq - HighFreq)
      else 1.5 * decay
    else 1.0
  }

  /** The signal amplitude after the frequency response. */
  function ApplyFrequencyResponse(amplitude: real, frequency: real, decay: real): (output: real)
    requires frequency >= ResonantFreq ==> 0.0 < decay <= 1.0
    requires frequency == ResonantFreq ==> decay == 1.0
    ensures LowFreq <= frequency <= HighFreq ==> output == amplitude
  {
    amplitude * FrequencyGain(frequency, decay)
  }

  /** The frequency response is linear in the amplitude. */
  lemma FrequencyResponseLinear(a1: real, a2: real, k: real, frequency: real, decay: real)
    requires frequency >= ResonantFreq ==> 0.0 < decay <= 1.0
    requires frequency == ResonantFreq ==> decay == 1.0
    ensures ApplyFrequencyResponse(a1 + a2, frequency, decay)
         == ApplyFrequencyResponse(a1, frequency, decay) + ApplyFrequencyResponse(a2, frequency, decay)
    ensures ApplyFrequencyResponse(k * a1, frequency, decay) == k * ApplyFrequencyResponse(a1, frequency, decay)
  {
  }

  /** The sensor module evaluates noise at 1 kHz, inside the flat band: its amplitude passes unchanged. */
  lemma OneKilohertzPassesUnchanged(amplitude: real, decay: real)
    ensures ApplyFrequencyResponse(amplitude, 1000.0, decay) == amplitude
  {
  }
}
