# Smart suit sensor chain — Dafny model

This project models the decision logic and the transducer formulas of the
smart-suit hazard monitor for industrial workers. A sensor module receives
`(parameter code, value)` pairs for temperature, radiation, chemical (CO),
oxygen, noise and voltage. For each pair it:

- runs the matching physical sensor model to get a processed value;
- picks the per-parameter log file;
- raises an alert when the raw value crosses that parameter's threshold.

A control module maps each alert to an actuator response code. A dashboard
script turns the hazard log into a timeline.

The per-sensor models are PT100 RTD, electrochemical gas sensor with
cross-sensitivity, semiconductor radiation detector with an isotope hint,
Hall-effect and non-contact voltage detectors, magnetoresistive sensor and
3-axis magnetometer, photodiode and infrared proximity, and MEMS microphone.
Each one follows the same shape: limit the stimulus to the sensor's range,
apply the transfer law, then add a bounded noise term and/or quantise.

How the model is built:

- Every `rand() % 201` in the source is an explicit parameter of type
  `CLib.Draw` (0..200). So every model is deterministic, and the draw
  `Centre` (100) removes the noise.
- All physics is stated over exact `real`.
- C's `round` and `(int)` conversion are written out (`CLib.Round`,
  `CLib.Trunc`). So is the source's `round(x / step) * step` rounding
  (`CLib.Quantise`).

Modules, one per source file:

- `TemperatureSensor` (temperature_sensor.h)
- `ChemicalSensor` (chemical_sensor.h)
- `RadiationSensor` (radiation_sensor.h)
- `ElectricalSensor` (electrical_sensor.h)
- `MagneticSensor` (magnetic_sensor.h)
- `OpticalSensor` (optical_sensor.h)
- `AcousticSensor` (acoustic_sensor.h)
- `Sensor` (sensor.c)
- `Control` (control.c)
- `HazardLog` (Proteus/sim.py)

Shared modules:

- `ParamCodes` holds the parameter codes and `get_param_name`. sensor.c and
  control.c carry identical copies of that function (control.c:89-99).
- `CLib` holds the C library stand-ins.
- `Wrappers` holds `Option`.

Three behaviours of the code are worth stating outright:

- An unknown parameter code is not rejected: `process_sensor_reading`
  returns the raw value and `check_threshold` raises no alert.
- The alert is decided on the raw value, not on the processed one
  (`Sensor.HandleReading`, `Sensor.RawValueDecides`).
- A dose rate of 0.3 μSv/h is detected: 0.3 / 0.15 = 2 > 1.5 and
  0.3 > 0.05. The boundary is 0.225 (`RadiationSensor.DetectionBoundary`).

## Model

| member | source | states |
|---|---|---|
| `ParamCodes.ParamName` | C-Implementation/sensor.c:261-270 | codes 1..6 get a name other than "Unknown"; every other code gets "Unknown" (control.c:89-99 is the same function) |
| `ParamCodes.ParamNamesDistinct` | C-Implementation/sensor.c:261-270 | the six parameters have six different names |
| `Sensor.ThresholdFor` | C-Implementation/sensor.c:29-35 | exactly the six known codes have a threshold; only oxygen's direction is "below" |
| `Sensor.Alerts` | C-Implementation/sensor.c:138-160 | the alert decision of `check_threshold`: only the six known codes can alert |
| `Sensor.CheckThreshold` | C-Implementation/sensor.c:138-166 | an alert is sent exactly when the threshold table says the value crosses its bound, and the sent pair is the unchanged `(code, value)` |
| `Sensor.AlertLimits` | C-Implementation/sensor.c:139-160 | alert iff value > 40 / 20 / 50 / 85 / 500 for temperature, radiation, chemical, noise, voltage; iff value < 19 for oxygen; never for an unknown code |
| `Sensor.AlertBoundaries` | C-Implementation/sensor.c:30-35 | one past the bound alerts and the bound itself does not; for oxygen, 18 alerts and 19 does not |
| `Sensor.EfieldStrength` | C-Implementation/sensor.c:38-41 | field strength times distance gives back the voltage; at 1 m the strength equals the voltage |
| `Sensor.VoltageSafetyLevel` | C-Implementation/sensor.c:44-49 | the level is 0..3, with band edges at 50, 500 and 1000 V |
| `Sensor.VoltageSafetyLevelMonotone` | C-Implementation/sensor.c:44-49 | a higher voltage never gets a lower level |
| `Sensor.LogFileName` | C-Implementation/sensor.c:55-85 | codes 1..6 get a file other than "unknown.csv"; every name fits the 20-character buffer |
| `Sensor.LogFileNamesDistinct` | C-Implementation/sensor.c:64-85 | the six parameters log to six different files |
| `Sensor.NoInterference` | C-Implementation/sensor.c:207 | seven interfering concentrations, all zero |
| `Sensor.ChemicalReading` | C-Implementation/sensor.c:205-218 | the processed CO reading is never negative, and a non-negative raw value comes back within 1.01 · 0.15 ppm of 1.01 · raw, for every noise draw |
| `Sensor.ProcessSensorReading` | C-Implementation/sensor.c:170-259 | temperature is processed by the RTD model with two years of drift; chemical by the CO model with no interference at 25 °C; every other code, known or not, keeps its raw value |
| `Sensor.ChemicalReadingCentred` | C-Implementation/sensor.c:205-218 | with the noise draw centred, a whole-ppm chemical reading is 1.01 × raw when positive and 0 otherwise |
| `Sensor.TemperatureReadingCentred` | C-Implementation/sensor.c:174-181 | with the noise draw centred, the processed temperature is 1.01·T + 0.01/Alpha |
| `Sensor.HandleReading` | C-Implementation/sensor.c:337-351 | one received pair gives the processed value, the log file of its code, and an alert decided on the raw value |
| `Sensor.RawValueDecides` | C-Implementation/sensor.c:345-351 | a raw 40 °C does not alert, although its processed reading is above 40 °C |
| `Control.DetermineResponse` | C-Implementation/control.c:70-87 | response is 0 iff the code is unknown; temperature gives cooling (101) iff value > 30 and heating (102) otherwise; codes 2..6 give 100·code + 1, whatever the value |
| `Control.ResponseName` | C-Implementation/control.c:101-112 | exactly the seven response codes have a name other than "Unknown Response" |
| `Control.ChosenResponsesAreNamed` | C-Implementation/control.c:70-112 | every non-zero response chosen has a name other than "Unknown Response" |
| `Control.HandleAlert` | C-Implementation/control.c:172-188 | a command is sent iff the code is known; it carries the chosen response and the value received from the sensor |
| `Control.EveryAlertIsActuated` | C-Implementation/control.c:72-73 | every alert the sensor module raises gets a positive response; a temperature alert always gets cooling, never heating |
| `TemperatureSensor.RtdResistance` | C-Implementation/temperature_sensor.h:22-24 | resistance at 0 °C is R0 = 100 Ω |
| `TemperatureSensor.RtdTemperature` | C-Implementation/temperature_sensor.h:33-34 | converting R0 back gives 0 °C |
| `TemperatureSensor.RtdRoundTrip` | C-Implementation/temperature_sensor.h:22-34 | converting a resistance back to a temperature undoes the resistance law, in both directions |
| `TemperatureSensor.RtdResistanceStrictlyIncreasing` | C-Implementation/temperature_sensor.h:22-24 | resistance strictly increases with temperature |
| `TemperatureSensor.RtdNoise` | C-Implementation/temperature_sensor.h:30 | resistance noise is at most 0.01 Ω, and zero for the centred draw |
| `TemperatureSensor.ReadRtdTemperature` | C-Implementation/temperature_sensor.h:27-35 | reading = (1 + 0.005·y)·T + 0.005·y/Alpha + noise/(R0·Alpha); with y = 0 and no noise it is exactly T; noise moves it by at most 0.01/(R0·Alpha) °C |
| `TemperatureSensor.DriftTerms` | C-Implementation/temperature_sensor.h:28-34 | drift and additive noise pass through the inverse law linearly |
| `TemperatureSensor.TwoYearReading` | C-Implementation/temperature_sensor.h:27-35 | after two years with no noise the reading is 1.01·T + 0.01/Alpha, and that offset is between 2.597 and 2.598 °C |
| `ChemicalSensor.CrossSensitivityShape` | C-Implementation/chemical_sensor.h:24-32 | the matrix is 7×7, every diagonal entry is 1.00, and it is not symmetric |
| `ChemicalSensor.EcSensorCurrent` | C-Implementation/chemical_sensor.h:35-50 | the loop's current equals baseline + linear response + the interference of every gas except the target + noise |
| `ChemicalSensor.EcNoise` | C-Implementation/chemical_sensor.h:47 | current noise is at most 2 nA, and zero for the centred draw |
| `ChemicalSensor.CrossSum` | C-Implementation/chemical_sensor.h:40-44 | the cross-sensitivity sum over the first n gases; zero when none of them is present |
| `ChemicalSensor.EcCurrent` | C-Implementation/chemical_sensor.h:35-50 | the current is within 2 nA of baseline + linear response + cross-sensitivity sum; with no interfering gas it is 5 + 20·c + noise |
| `ChemicalSensor.InterferenceUpdate` | C-Implementation/chemical_sensor.h:41-42 | changing one interfering concentration changes only that gas's term, by its weighted change, and nothing for the target's own column |
| `ChemicalSensor.CrossSumUpdate` | C-Implementation/chemical_sensor.h:40-44 | changing one interfering concentration changes the partial sum by exactly that gas's weighted change (nothing for the target) |
| `ChemicalSensor.InterferentContribution` | C-Implementation/chemical_sensor.h:40-44 | each gas j ≠ target adds exactly conc·20·CROSS[g-1][j] to the current; the target's own column is skipped |
| `ChemicalSensor.CurrentToConcentration` | C-Implementation/chemical_sensor.h:53-62 | the result is ≥ 0 and a whole multiple of 0.1 ppm; it is 0 when the linear inverse is negative, and otherwise within 0.05 ppm of it |
| `ChemicalSensor.ConcentrationRoundTrip` | C-Implementation/chemical_sensor.h:35-62 | with no interference and no noise, a concentration c ≥ 0 comes back as c rounded to the nearest 0.1 ppm |
| `ChemicalSensor.ConcentrationRoundTripWithNoise` | C-Implementation/chemical_sensor.h:35-62 | with no interference and any noise draw, a concentration c ≥ 0 comes back within 0.15 ppm |
| `ChemicalSensor.ApplyTemperatureEffect` | C-Implementation/chemical_sensor.h:65-70 | unchanged at 20 °C, × 1.01 at 25 °C; a non-negative concentration is raised above 20 °C and lowered below it |
| `CLib.Offset` | C-Implementation/temperature_sensor.h:30 | `rand() % 201 - 100` is in -100..100, and 0 exactly for the centred draw |
| `CLib.Round` | C-Implementation/chemical_sensor.h:58 | C `round`: the nearest integer, with halves rounded away from zero |
| `CLib.Trunc` | C-Implementation/radiation_sensor.h:27 | the `(int)` conversion: truncation toward zero |
| `CLib.Quantise` | C-Implementation/chemical_sensor.h:58 | rounding to a resolution gives a whole number of steps, within half a step of the input, on the input's side of zero |
| `CLib.Clamp` | C-Implementation/magnetic_sensor.h:21-22 | the limited value is in range, and unchanged when it already was |
| `RadiationSensor.ExpectedCounts` | C-Implementation/radiation_sensor.h:20 | over one hour the expected count is 150 per μSv/h; it is never negative for a non-negative rate and time, and zero when either is zero |
| `RadiationSensor.SimulateRadiationCounts` | C-Implementation/radiation_sensor.h:18-29 | the count is never negative, whatever the variation, and is the truncation of expected + variation + 0.5 when that is ≥ 1 |
| `RadiationSensor.CentredCounts` | C-Implementation/radiation_sensor.h:20-28 | with no variation, the count is the expected count rounded to the nearest integer |
| `RadiationSensor.DetectRadiation` | C-Implementation/radiation_sensor.h:32-38 | detection (ratio to background > 1.5 and level > 0.05) holds iff level > 0.225 μSv/h |
| `RadiationSensor.DetectionBoundary` | C-Implementation/radiation_sensor.h:32-38 | 0.225 is not detected and 0.226 is; 0.3 is detected and 0.05 is not |
| `RadiationSensor.Sum` | C-Implementation/radiation_sensor.h:45-48 | the total of the bins, summed from the front; never negative when no bin is |
| `RadiationSensor.PeakIndex` | C-Implementation/radiation_sensor.h:54-60 | the peak found by the scan is an index of the spectrum |
| `RadiationSensor.PeakIsFirstMaximum` | C-Implementation/radiation_sensor.h:54-60 | the peak holds the maximum and is the first index that does, because the comparison is strict |
| `RadiationSensor.Band` | C-Implementation/radiation_sensor.h:64-66 | the band is 1..3 |
| `RadiationSensor.BandMonotone` | C-Implementation/radiation_sensor.h:64-66 | a peak further up the spectrum never gets a lower band |
| `RadiationSensor.Isotope` | C-Implementation/radiation_sensor.h:41-67 | the hint is 0 iff the total is below 10 counts, and 1..3 otherwise |
| `RadiationSensor.IdentifyIsotope` | C-Implementation/radiation_sensor.h:41-67 | the two scans return the hint of the first `size` bins (0 for a non-positive size); the spectrum is only read |
| `ElectricalSensor.HallNoise` | C-Implementation/electrical_sensor.h:28 | Hall output noise is at most 0.01 V, and zero for the centred draw |
| `ElectricalSensor.HallEffectOutput` | C-Implementation/electrical_sensor.h:19-31 | output = 2.5 + 0.005·B + noise, with B limited to 2000 mT from above only; the output never exceeds 12.51 V |
| `ElectricalSensor.MeasureCurrentHall` | C-Implementation/electrical_sensor.h:34-45 | when 5·I ≤ 2000, the measured current is I + 40·noise: exact for the centred draw and within 0.4 A otherwise; above that, it is within 0.4 A of 400 A |
| `ElectricalSensor.DetectVoltagePresence` | C-Implementation/electrical_sensor.h:48-57 | nothing is sensed below 50 V or beyond 0.1 m; at 50 V or more and 0..0.1 m, the voltage is always sensed |
| `ElectricalSensor.StrengthAtLeastVoltage` | C-Implementation/electrical_sensor.h:54-56 | within the range the inverse-square strength is at least the voltage |
| `ElectricalSensor.NothingSensedAtHalfMetre` | C-Implementation/electrical_sensor.h:49-51 | the sensor module's probe at 0.5 m never senses a voltage |
| `MagneticSensor.MagnetoresistiveOutput` | C-Implementation/magnetic_sensor.h:19-34 | after limiting the field to ±6 mT, the output is within 0.02 % of the ideal Vs·12·B/1000 plus 1 % of the supply; it equals the ideal with both draws centred |
| `MagneticSensor.MrNonlinearity` | C-Implementation/magnetic_sensor.h:28 | the nonlinearity term is at most 0.02 % of the output |
| `MagneticSensor.MrNoise` | C-Implementation/magnetic_sensor.h:31 | the noise term is at most 1 % of the supply voltage |
| `MagneticSensor.MrIdealBounded` | C-Implementation/magnetic_sensor.h:21-25 | because of the range limit, the ideal output is at most 7.2 % of the supply |
| `MagneticSensor.AxisReading` | C-Implementation/magnetic_sensor.h:39-51 | one axis reading is a whole multiple of 0.0005 Gauss, within 0.2 % plus half a step of the field limited to ±8 Gauss |
| `MagneticSensor.MagError` | C-Implementation/magnetic_sensor.h:45 | the axis error is at most 0.2 % of the limited field |
| `MagneticSensor.AxisReadingInRange` | C-Implementation/magnetic_sensor.h:40-51 | an in-range field with the draw centred is read to within half a step |
| `MagneticSensor.ReadMagnetometer` | C-Implementation/magnetic_sensor.h:37-53 | writes all three measured components; component i depends only on actual component i and draw i; nothing else in `measured` changes; `actual` is unchanged when it is a different array |
| `OpticalSensor.PhotoNoise` | C-Implementation/optical_sensor.h:29 | the photodiode noise is at most 0.2 nA |
| `OpticalSensor.PhotodiodeCurrent` | C-Implementation/optical_sensor.h:20-32 | current = 0.5·(lux/683)·1e-6 + 2e-9 + noise, within 2e-10 A of the ideal, and positive for lux ≥ 0 |
| `OpticalSensor.PhotodiodeCurrentIncreasing` | C-Implementation/optical_sensor.h:20-32 | with the draw fixed, the current strictly increases with lux |
| `OpticalSensor.ProxNoise` | C-Implementation/optical_sensor.h:44 | the proximity noise is at most 0.5 % of the distance |
| `OpticalSensor.ReadProximity` | C-Implementation/optical_sensor.h:35-46 | exactly 0.05 m below 0.05 m, exactly 1.5 m above 1.5 m, and otherwise within 0.5 % of the distance (exact for the centred draw) |
| `AcousticSensor.MicOutputVoltage` | C-Implementation/acoustic_sensor.h:19-31 | the noise is at most the output divided by the SNR ratio; with the centred draw the output is pressure × sensitivity |
| `AcousticSensor.FrequencyGain` | C-Implementation/acoustic_sensor.h:34-50 | gain is 1 on 100..10000 Hz; f/100 below; strictly between 1 and 1.5 below the resonance; in (0, 1.5] from it on; exactly 1.5 at 15 kHz |
| `AcousticSensor.ApplyFrequencyResponse` | C-Implementation/acoustic_sensor.h:34-53 | in the flat band the amplitude passes unchanged |
| `AcousticSensor.FrequencyResponseLinear` | C-Implementation/acoustic_sensor.h:52 | the response is linear in the amplitude (additive and homogeneous) |
| `AcousticSensor.OneKilohertzPassesUnchanged` | C-Implementation/acoustic_sensor.h:35-52 | at 1 kHz, the frequency the sensor module uses, the amplitude is returned unchanged |
| `HazardLog.Contains` | Proteus/sim.py:39 | Python's `in` on strings: a found keyword is no longer than the line, and the empty string is always found |
| `HazardLog.Strip` | Proteus/sim.py:38 | `str.strip()`: the result is one contiguous piece of the line, everything cut away on either side is whitespace, and the result neither starts nor ends with whitespace |
| `HazardLog.TrimLeftDropsSpaces` | Proteus/sim.py:38 | stripping from the front removes exactly a run of whitespace |
| `HazardLog.TrimRightDropsSpaces` | Proteus/sim.py:38 | stripping from the back removes exactly a run of whitespace |
| `HazardLog.ContainsAfterTrimLeft` | Proteus/sim.py:38-39 | a keyword not starting with whitespace occurs before the front strip iff it occurs after |
| `HazardLog.ContainsAfterTrimRight` | Proteus/sim.py:38-39 | a keyword not ending with whitespace occurs before the back strip iff it occurs after |
| `HazardLog.StripKeepsKeywords` | Proteus/sim.py:38-47 | stripping never changes whether the normal marker or a hazard keyword occurs in a line |
| `HazardLog.FirstHazard` | Proteus/sim.py:46-52 | no hazard is found iff no keyword of the map occurs in the line; a found code belongs to a keyword that occurs |
| `HazardLog.FirstHazardIsFirst` | Proteus/sim.py:46-52 | when keyword j occurs and no earlier one in map order does, the code found is keyword j's: the scan stops at the first match |
| `HazardLog.LineHazards` | Proteus/sim.py:39-52 | a line adds at most five entries; exactly five iff it contains "Everything is normal"; none iff it contains neither that nor any hazard keyword |
| `HazardLog.LineHazardsShape` | Proteus/sim.py:39-52 | a line with "Everything is normal" adds five zeros, even if it also names a hazard; any other line adds at most one code, in 1..5 |
| `HazardLog.FirstHazardBySameKeywords` | Proteus/sim.py:46-52 | lines containing the same keywords get the same hazard |
| `HazardLog.StripKeepsEntries` | Proteus/sim.py:38-52 | stripping never changes the entries a line adds |
| `HazardLog.Hazards` | Proteus/sim.py:37-52 | the hazard codes of all stripped lines in order; each line adds at most five, so there are at most 5 · (number of lines) |
| `HazardLog.StatusOf` | Proteus/sim.py:42-50 | the status is 0 or 1, and 1 iff the hazard code is non-zero |
| `HazardLog.HazardCodesInRange` | Proteus/sim.py:9-15 | every code in the hazard timeline is in 0..5 |
| `HazardLog.AppendKeepsParallel` | Proteus/sim.py:47-51 | appending one entry at the next time step keeps the three lists parallel |
| `HazardLog.AppendNormal` | Proteus/sim.py:40-44 | the inner loop adds five normal entries at the next five time steps and keeps the timelines parallel |
| `HazardLog.AppendLine` | Proteus/sim.py:39-52 | one stripped line appends exactly its entries to the hazard list, and keeps the timelines parallel with the time step counting entries |
| `HazardLog.BuildTimeline` | Proteus/sim.py:36-52 | the hazard list is the lines' entries in order; the three lists have equal length; the time list is exactly 0..n-1; status[i] = 1 iff hazard[i] ≠ 0 |
| `HazardLog.Count` | Proteus/sim.py:55-57 | an element occurs at most as often as the list is long |
| `HazardLog.TimeSplit` | Proteus/sim.py:55-58 | normal time + abnormal time = total time, both non-negative |
| `HazardLog.AbnormalTimeCountsAlerts` | Proteus/sim.py:55-58 | abnormal time equals the number of 1s in the status list, and normal time the number of 0s |

## Left out

- Sockets and the accept/receive loops are not modelled. This covers `send_alert_to_control`, `send_to_actuator` and the loops in each `main` (sensor.c:104-136, 273-360; control.c:31-68, 114-197). They are network I/O. The pair a module would send is returned instead (`CheckThreshold`, `HandleAlert`).
- The 32-bit wire format and partial `recv` reads are not modelled. In the modelled code no arithmetic is done on the received integers, so their width does not matter.
- `log_data`'s file handling and timestamp are not modelled (file I/O and `localtime`). Only the code-to-filename switch is kept.
- actuator.c is not part of this model. It only prints, and its copy of `get_response_name` is the same as control.c's.
- environment.c is not part of this model. It is an interactive input menu.
- `rand()`/`srand()` are not modelled. Each draw is a parameter in 0..200.
- `dbspl_to_pascal` is not modelled, because it needs `pow`.
- The two `pow` constants of `mic_output_voltage` are parameters assumed positive.
- The `exp` above the 15 kHz resonance is a parameter `decay`, assumed in (0, 1], and 1 at 15 kHz.
- RadiationSensor.SimulateRadiationCounts: `sqrt(expected)` is a parameter `stdDev`, so the model does not tie the variation to the square root of the expected count.
- RadiationSensor.IdentifyIsotope: the sum is over unbounded integers, so a 32-bit overflow of `total_counts` is not modelled.
- The synthetic spectrum of sensor.c:192-195 is not modelled, because it needs `exp` and `pow`. So `process_sensor_reading` does not call `identify_isotope`. That call affects only a printed message.
- Sensor.ProcessSensorReading: computes only the processed value. The printed diagnostics are not produced: RTD resistance, counts and detection, safety level, field strength, Hall output, microphone voltage, voltage presence. Each of those functions is modelled on its own.
- Sensor.EfieldStrength: requires a non-zero distance. IEEE infinity and NaN at distance 0 are not modelled; the source only calls it with 1 m.
- ElectricalSensor.DetectVoltagePresence: at distance 0 the model says "detected". This matches the source's IEEE infinity, which is the only floating-point effect kept.
- Floating point as a whole is not modelled. Everything is exact `real`, so IEEE rounding is out of scope, for example whether 0.225 / 0.15 exceeds 1.5 in binary.
- `printf` diagnostics are not modelled, including the mismatched format at sensor.c:228-229.
- HazardLog.Strip: removes the ASCII whitespace `str.strip` removes: space, `\t \n \v \f \r` and the separators 0x1C..0x1F. Non-ASCII Unicode whitespace, such as U+0085 and U+00A0, is kept, though Python removes it too.
- The log-file read and all plotting in sim.py are not modelled (I/O and UI). `Counter(hazard_list)[0]` is modelled as `Count(hazardList, 0)`.
- Constants that the source declares but never uses are not modelled: range limits, response times, hysteresis, confidence threshold, energy resolution, microphone overload point.
