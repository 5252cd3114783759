/**
 * The sensor module: for each (parameter code, value) pair received it
 * derives a processed value through the matching transducer model, names
 * the per-parameter log file, and raises an alert when the RAW value
 * crosses that parameter's threshold.
 */
module Sensor {
  import opened Wrappers
  import opened CLib
  import opened ParamCodes
  import TemperatureSensor
  import ChemicalSensor

  const TempThreshold := 40
  const RadiationThreshold := 20
  const ChemicalThreshold := 50
  const OxygenMinThreshold := 19
  const NoiseThreshold := 85
  const VoltageThreshold := 500

  /** Alerts fire on values strictly above the bound, or, for oxygen, strictly below it. */
  datatype Direction = Above | Below
  datatype Threshold = Threshold(bound: int, direction: Direction)

  /** The pair handed on to the control module. */
  datatype Alert = Alert(code: int, value: int)

  /** The threshold table: one entry per known parameter, none for any other code. */
  function ThresholdFor(code: int): (t: Option<Threshold>)
    ensures t.Some? <==> IsKnown(code)
    ensures t.Some? ==> (t.value.direction == Below <==> code == Oxygen)
  {
    if code == Temperature then Some(Threshold(TempThreshold, Above))
    else if code == Radiation then Some(Threshold(RadiationThreshold, Above))
    else if code == Chemical then Some(Threshold(ChemicalThreshold, Above))
    else if code == Oxygen then Some(Threshold(OxygenMinThreshold, Below))
    else if code == Noise then Some(Threshold(NoiseThreshold, Above))
    else if code == Voltage then Some(Threshold(VoltageThreshold, Above))
    else None
  }

  predicate Crosses(t: Threshold, value: int)
  {
    match t.direction
    case Above => value > t.bound
    case Below => value < t.bound
  }

  /** Whether the pair `(code, value)` calls for an alert, read from the threshold table. */
  predicate Alerts(code: int, value: int): (alert: bool)
    ensures alert ==> IsKnown(code)
  {
    ThresholdFor(code).Some? && Crosses(ThresholdFor(code).value, value)
  }

  /**
   * The alert decision as the source makes it: a flag set per parameter,
   * then, when set, the unchanged pair is forwarded.
   */
  method CheckThreshold(code: int, value: int) returns (sent: Option<Alert>)
    ensures sent.Some? <==> Alerts(code, value)
    ensures sent.Some? ==> sent.value == Alert(code, value)
  {
    var alert := false;
    if code == Temperature {
      if value > TempThreshold { alert := true; }
    } else if code == Radiation {
      if value > RadiationThreshold { alert := true; }
    } else if code == Chemical {
      if value > ChemicalThreshold { alert := true; }
    } else if code == Oxygen {
      if value < OxygenMinThreshold { alert := true; }
    } else if code == Noise {
      if value > NoiseThreshold { alert := true; }
    } else if code == Voltage {
      if value > VoltageThreshold { alert := true; }
    }
    if alert {
      sent := Some(Alert(code, value));
    } else {
      sent := None;
    }
  }

  /** The thresholds in the parameters' own units; the bound itself never alerts. */
  lemma AlertLimits(code: int, value: int)
    ensures code == Temperature ==> (Alerts(code, value) <==> value > 40)
    ensures code == Radiation ==> (Alerts(code, value) <==> value > 20)
    ensures code == Chemical ==> (Alerts(code, value) <==> value > 50)
    ensures code == Oxygen ==> (Alerts(code, value) <==> value < 19)
    ensures code == Noise ==> (Alerts(code, value) <==> value > 85)
    ensures code == Voltage ==> (Alerts(code, value) <==> value > 500)
    ensures !IsKnown(code) ==> !Alerts(code, value)
  {
  }

  /** One past the bound alerts and the bound does not; oxygen is the mirror image at 18 and 19. */
  lemma AlertBoundaries(code: int)
    requires IsKnown(code)
    ensures var b := ThresholdFor(code).value.bound;
      if code == Oxygen then Alerts(code, b - 1) && !Alerts(code, b)
      else Alerts(code, b + 1) && !Alerts(code, b)
  {
  }

  /** Electric field strength, in V/m, at `distance` metres from `voltage` volts. */
  function EfieldStrength(voltage: real, distance: real): (strength: real)
    requires distance != 0.0
    ensures strength * distance == voltage
    ensures distance == 1.0 ==> strength == voltage
  {
    voltage / distance
  }

  /** Voltage hazard band: 0 safe below 50 V, 1 below 500 V, 2 below 1000 V, 3 above. */
  function VoltageSafetyLevel(voltage: real): (level: int)
    ensures 0 <= level <= 3
    ensures level == 0 <==> voltage < 50.0
    ensures level <= 1 <==> voltage < 500.0
    ensures level <= 2 <==> voltage < 1000.0
  {
    if voltage < 50.0 then 0
    else if voltage < 500.0 then 1
    else if voltage < 1000.0 then 2
    else 3
  }

  /** A higher voltage never lands in a lower band. */
  lemma VoltageSafetyLevelMonotone(v1: real, v2: real)
    requires v1 <= v2
    ensures VoltageSafetyLevel(v1) <= VoltageSafetyLevel(v2)
  {
  }

  /** The per-parameter log file. Every name fits the source's 20-character buffer with its terminator. */
  function LogFileName(code: int): (name: string)
    ensures IsKnown(code) <==> name != "unknown.csv"
    ensures |name| < 20
  {
    match code
    case 1 => "temp.csv"
    case 2 => "radiation.csv"
    case 3 => "chemical.csv"
    case 4 => "oxygen.csv"
    case 5 => "noise.csv"
    case 6 => "voltage.csv"
    case _ => "unknown.csv"
  }

  /** The six parameters log to six different files. */
  lemma LogFileNamesDistinct(c1: int, c2: int)
    requires IsKnown(c1) && IsKnown(c2) && c1 != c2
    ensures LogFileName(c1) != LogFileName(c2)
  {
  }

  /** Years in service the sensor module assumes for its RTD. */
  const RtdYears := 2
  /** Ambient temperature, °C, the sensor module assumes for its gas sensor. */
  const Ambient: real := 25.0

  /** No interfering gases: the seven concentrations the sensor module passes. */
  function NoInterference(): (s: seq<real>)
    ensures |s| == ChemicalSensor.GasCount
    ensures forall j :: 0 <= j < |s| ==> s[j] == 0.0
  {
    seq(ChemicalSensor.GasCount, _ => 0.0)
  }

  /**
   * The processed chemical reading: CO current without interference,
   * converted back and corrected for 25 °C. It is never negative, and a
   * non-negative raw value comes back within 1.01 · 0.15 ppm of 1.01 · raw.
   */
  function ChemicalReading(raw: int, r: Draw): (reading: real)
    ensures reading >= 0.0
    ensures raw >= 0 ==> Abs(reading - 1.01 * raw as real) <= 1.01 * 0.15
  {
    var current := ChemicalSensor.EcCurrent(ChemicalSensor.GasCO, raw as real, NoInterference(), r);
    var concentration := ChemicalSensor.CurrentToConcentration(current, ChemicalSensor.GasCO);
    assert raw >= 0 ==> Abs(concentration - raw as real) <= 0.15 by {
      if raw >= 0 {
        ChemicalSensor.ConcentrationRoundTripWithNoise(ChemicalSensor.GasCO, raw as real, NoInterference(), r);
      }
    }
    ChemicalSensor.ApplyTemperatureEffect(concentration, Ambient)
  }

  /**
   * The processed value of a reading. Temperature goes through the RTD
   * model (two years of drift, draw `rtdDraw`), chemical through the CO
   * electrochemical model (draw `currentDraw`); every other code,
   * known or not, keeps its raw value.
   */
  method ProcessSensorReading(code: int, raw: int, rtdDraw: Draw, currentDraw: Draw) returns (processed: real)
    ensures code == Temperature ==> processed == TemperatureSensor.ReadRtdTemperature(raw as real, RtdYears, rtdDraw)
    ensures code == Chemical ==> processed == ChemicalReading(raw, currentDraw)
    ensures code != Temperature && code != Chemical ==> processed == raw as real
  {
    processed := raw as real;
    if code == Temperature {
      var rtdReading := TemperatureSensor.ReadRtdTemperature(raw as real, RtdYears, rtdDraw);
      processed := rtdReading;
    } else if code == Chemical {
      var interfering := new real[ChemicalSensor.GasCount](_ => 0.0);
      assert interfering[..] == NoInterference();
      var current := ChemicalSensor.EcSensorCurrent(ChemicalSensor.GasCO, raw as real, interfering, currentDraw);
      var corrected := ChemicalSensor.CurrentToConcentration(current, ChemicalSensor.GasCO);
      corrected := ChemicalSensor.ApplyTemperatureEffect(corrected, Ambient);
      processed := corrected;
    }
  }

  /**
   * With the draw centred, a chemical reading of a whole number of ppm comes
   * back as that number times the 25 °C factor 1.01, and as 0 when not positive.
   */
  lemma ChemicalReadingCentred(raw: int)
    ensures ChemicalReading(raw, Centre) == if raw > 0 then 1.01 * raw as real else 0.0
  {
    var concentration := raw as real;
    assert concentration / ChemicalSensor.Resolution == (10 * raw) as real;
    RoundOfInteger(10 * raw);
  }

  /** With the draw centred, a temperature reading is 1.01·T + 0.01/Alpha, about 2.6 °C above 1.01·T. */
  lemma TemperatureReadingCentred(raw: int)
    ensures TemperatureSensor.ReadRtdTemperature(raw as real, RtdYears, Centre)
         == 1.01 * raw as real + 0.01 / TemperatureSensor.Alpha
  {
    TemperatureSensor.TwoYearReading(raw as real);
  }

  /**
   * What the sensor module does with one received pair: the processed
   * value, the log file the raw value goes to, and the alert, which is
   * decided on the raw value and not on the processed one.
   */
  method HandleReading(code: int, value: int, rtdDraw: Draw, currentDraw: Draw)
    returns (processed: real, logFile: string, sent: Option<Alert>)
    ensures code == Temperature ==> processed == TemperatureSensor.ReadRtdTemperature(value as real, RtdYears, rtdDraw)
    ensures code == Chemical ==> processed == ChemicalReading(value, currentDraw)
    ensures code != Temperature && code != Chemical ==> processed == value as real
    ensures logFile == LogFileName(code)
    ensures sent.Some? <==> Alerts(code, value)
    ensures sent.Some? ==> sent.value == Alert(code, value)
  {
    processed := ProcessSensorReading(code, value, rtdDraw, currentDraw);
    logFile := LogFileName(code);
    sent := CheckThreshold(code, value);
  }

  /**
   * Deciding on the raw value matters: a raw 40 °C does not alert although
   * its processed reading, with the draw centred, is about 43 °C.
   */
  lemma RawValueDecides()
    ensures !Alerts(Temperature, 40)
    ensures TemperatureSensor.ReadRtdTemperature(40.0, RtdYears, Centre) > 40.0
  {
    TemperatureReadingCentred(40);
  }
}
