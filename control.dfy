/**
 * The control module: maps an alert to an actuator command and forwards
 * the command, with the alert's value, only when a response exists.
 */
module Control {
  import opened Wrappers
  import opened ParamCodes
  import Sensor

  const CoolingOn := 101
  const HeatingOn := 102
  const RadiationAlarm := 201
  const ChemicalAlarm := 301
  const OxygenAlarm := 401
  const NoiseProtection := 501
  const VoltageWarning := 601

  /** Temperatures above this call for cooling, others for heating. */
  const CoolingAbove := 30

  /** The seven actuator response codes. */
  predicate IsResponse(code: int)
  {
    code == CoolingOn || code == HeatingOn || code == RadiationAlarm || code == ChemicalAlarm
    || code == OxygenAlarm || code == NoiseProtection || code == VoltageWarning
  }

  /** The pair sent to the actuator module. */
  datatype Command = Command(response: int, value: int)

  /**
   * The response to an alert. Temperature chooses between cooling and
   * heating by the value; every other known parameter has one alarm,
   * numbered 100·code + 1; unknown codes get 0, meaning none.
   */
  function DetermineResponse(code: int, value: int): (response: int)
    ensures response == 0 <==> !IsKnown(code)
    ensures response != 0 ==> IsResponse(response)
    ensures code == Temperature ==> (response == CoolingOn <==> value > CoolingAbove)
    ensures code == Temperature ==> (response == HeatingOn <==> value <= CoolingAbove)
    ensures Radiation <= code <= Voltage ==> response == 100 * code + 1
  {
    match code
    case 1 => if value > CoolingAbove then CoolingOn else HeatingOn
    case 2 => RadiationAlarm
    case 3 => ChemicalAlarm
    case 4 => OxygenAlarm
    case 5 => NoiseProtection
    case 6 => VoltageWarning
    case _ => 0
  }

  /** Display name of a response code. */
  function ResponseName(code: int): (name: string)
    ensures IsResponse(code) <==> name != "Unknown Response"
  {
    match code
    case 101 => "Cooling System Activation"
    case 102 => "Heating System Activation"
    case 201 => "Radiation Alarm"
    case 301 => "Chemical Hazard Alarm"
    case 401 => "Oxygen Level Alarm"
    case 501 => "Noise Protection"
    case 601 => "Electrical Field Warning"
    case _ => "Unknown Response"
  }

  /** Every response the control module chooses has a name of its own. */
  lemma ChosenResponsesAreNamed(code: int, value: int)
    ensures DetermineResponse(code, value) != 0 <==> ResponseName(DetermineResponse(code, value)) != "Unknown Response"
  {
  }

  /**
   * What the control module does with one alert: a command carrying the
   * alert's own value, sent only when the response code is positive.
   */
  method HandleAlert(code: int, value: int) returns (sent: Option<Command>)
    ensures sent.Some? <==> IsKnown(code)
    ensures sent.Some? ==> sent.value == Command(DetermineResponse(code, value), value)
  {
    var response := DetermineResponse(code, value);
    if response > 0 {
      sent := Some(Command(response, value));
    } else {
      sent := None;
    }
  }

  /**
   * Along the chain from sensor to actuator, every alert the sensor module
   * raises leads to a command. A temperature alert needs more than 40 °C,
   * so it always switches cooling on: heating is never chosen for an alert
   * that the sensor module sends.
   */
  lemma EveryAlertIsActuated(code: int, value: int)
    requires Sensor.Alerts(code, value)
    ensures DetermineResponse(code, value) > 0
    ensures code == Temperature ==> DetermineResponse(code, value) == CoolingOn
  {
    Sensor.AlertLimits(code, value);
  }
}
