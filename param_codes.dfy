/**
 * The parameter codes shared by the sensor and control modules, and the
 * display name of each (the two modules carry identical copies of it).
 */
module ParamCodes {

  const Temperature := 1
  const Radiation := 2
  const Chemical := 3
  const Oxygen := 4
  const Noise := 5
  const Voltage := 6

  /** The codes 1..6 name a parameter; every other code is unknown but still accepted. */
  predicate IsKnown(code: int)
  {
    Temperature <= code <= Voltage
  }

  /** Display name of a parameter code. */
  function ParamName(code: int): (name: string)
    ensures IsKnown(code) <==> name != "Unknown"
  {
    match code
    case 1 => "Temperature"
    case 2 => "Radiation"
    case 3 => "Chemical"
    case 4 => "Oxygen"
    case 5 => "Noise"
    case 6 => "Voltage"
    case _ => "Unknown"
  }

  /** The six parameters have six different names. */
  lemma ParamNamesDistinct(c1: int, c2: int)
    requires IsKnown(c1) && IsKnown(c2) && c1 != c2
    ensures ParamName(c1) != ParamName(c2)
  {
  }
}
