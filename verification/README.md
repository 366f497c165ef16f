# CAM generation in the Artery CA service, in Dafny

This project models how Artery's Cooperative Awareness (CA) service decides when to
send a Cooperative Awareness Message (CAM). It follows the generation rules of
section 6.1.3 of ETSI EN 302 637-2 V1.3.2. The model also covers the few CAM fields
whose values the service computes.

Each triggering check does the following:
- It clamps the delay recommended by Decentralized Congestion Control (DCC) to
  [T_GenCamMin, T_GenCamMax] = [100 ms, 1000 ms]. The result is a floor the time
  since the last CAM must reach.
- It tests three kinematic predicates against the snapshot taken at the last CAM:
  heading changed by more than 4°, position by more than 4 m, speed by more than
  0.5 m/s.
- It either sends a CAM or waits. A CAM triggered by kinematics sharpens the adaptive
  period `genCam` and resets the low-dynamics count. A periodic CAM adds one to the
  count and, at the limit of 3, backs the period off to T_GenCamMax.

Every CAM records the current kinematics and time. It carries the low frequency
container when at least 500 ms have passed since the last CAM that carried one.

The modules are:
- `Units` (units.dfy): the integer units and the round-toward-zero division that
  C++ double-to-integer conversion performs.
- `Dynamics` (dynamics.dfy): the kinematic reading and the three predicates.
- `CamMessage` (cam_message.dfy): the generation time, speed, drive direction and
  longitudinal acceleration encodings, and the low frequency container.
- `CaService` (ca_service.dfy): the generation state, initialisation, `GenCamDcc`,
  `SendCam` and `Step`, the state invariant, and runs of many checks.
- `CaScenarios` (ca_scenarios.dfy): worked runs stated for any vehicle and start time.

Units are integers:
- time in milliseconds;
- planar position in millimetres;
- speed in mm/s;
- heading in microdegrees;
- acceleration in mm/s².

Position is a planar Cartesian point, so "distance > 4 m" is modelled exactly as
"squared distance > (4 m)²".

ETSI TS 102 894-2 defines LongitudinalAccelerationValue as a count of 0.1 m/s²
over -160..161, with 161 meaning "unavailable". The code reads the acceleration in
m/s² and compares it against those raw bounds, [-160.0, 161.0]
(src/artery/application/CaService.cc:180). It then multiplies by
`LongitudinalAccelerationValue_pointOneMeterPerSecSquaredForward`, which is 1
(:181). The model follows the code: the raw field holds the reading truncated
toward zero to whole m/s². So a 2.5 m/s² reading goes out as 2, which a receiver
reads as 0.2 m/s². Readings from 16.1 m/s² up to but not including 161 m/s², and
from -160 m/s² to just under -16 m/s², lie outside the schema's ±16 m/s² but are
sent as values, not as "unavailable". A reading of exactly 161 m/s² truncates to
161 and so goes out as the sentinel.

## Model

| member | source | states |
|---|---|---|
| Dynamics.HeadingChangedOutsideWindow | src/artery/application/CaService.cc:23-27 | the heading predicate holds exactly when the new heading lies outside the closed ±4° window around the last CAM's heading, so exactly 4° does not trigger |
| Dynamics.SpeedChangedOutsideWindow | src/artery/application/CaService.cc:35-39 | the speed predicate holds exactly outside the closed ±0.5 m/s window around the last CAM's speed |
| Dynamics.HeadingHasNoWrapAround | src/artery/application/CaService.cc:23-27 | the difference is not taken modulo 360°: for every heading, a full turn (same direction) triggers, and so does a 2° turn across north (359° to 1°, shifted by any heading) |
| Dynamics.PositionChangedAlongAxis | src/artery/application/CaService.cc:29-33 | along one axis the position predicate holds exactly when the displacement exceeds 4 m, so exactly 4 m does not trigger |
| Dynamics.PositionChangedByComponent | src/artery/application/CaService.cc:29-33 | a displacement of more than 4 m along either axis triggers whatever happens on the other axis |
| Dynamics.PredicatesSymmetricAndIrreflexive | src/artery/application/CaService.cc:23-39 | all three predicates are symmetric in old and new reading and never fire on an unchanged reading |
| CamMessage.GenerationDeltaTime | src/artery/application/CaService.cc:110 | the generation time handed to the builder is the TAI millisecond count modulo 65536 (a `uint16_t`) |
| CamMessage.SpeedValue | src/artery/application/CaService.cc:174 | the speed value is the magnitude in whole cm/s, fraction cut off: value·10 ≤ \|speed\| < (value+1)·10 mm/s |
| CamMessage.Direction | src/artery/application/CaService.cc:176-177 | the drive direction is forward exactly when the speed is not negative |
| CamMessage.SpeedRoundTrip | src/artery/application/CaService.cc:174-177 | a receiver reading speed value and direction back gets the signed speed truncated toward zero to whole cm/s, and its sign whenever it is at least 1 cm/s |
| CamMessage.LongitudinalAccelerationValue | src/artery/application/CaService.cc:178-184 | inside [-160.0, 161.0] the value keeps the reading's sign and is its magnitude truncated toward zero; outside, the value is the "unavailable" sentinel 161; never anything outside [-160, 161] |
| CamMessage.AccelerationUnavailableExactly | src/artery/application/CaService.cc:180-184 | the sentinel comes out exactly for readings below -160.0 or from 161.0 upward; the in-range reading 161.0 itself also becomes 161 |
| CamMessage.AccelerationRoundTrip | src/artery/application/CaService.cc:180-184 | the raw field holds the reading truncated toward zero to whole m/s² for every reading in [-160.0, 161.0), and "unavailable" for every other reading |
| CamMessage.AccelerationCountInWholeMetres | src/artery/application/CaService.cc:178-181 | the count is written in whole m/s², not the schema's 0.1 m/s²: 2.5 m/s² goes out as 2 (not 25), and 20 m/s² goes out as 20 (not "unavailable") |
| CamMessage.AccelerationNotClamped | src/artery/application/CaService.cc:180-184 | ±200 m/s² become "unavailable", not a clamped boundary value; -2.5 m/s² truncates toward zero to -2 |
| CamMessage.ExteriorLightsAsWritten | src/artery/application/CaService.cc:212-215 | as written, the daytime-running-lights bit is OR-ed into whatever the allocated octet held: that bit is always set, and each of the other seven bits is the allocated octet's own |
| CamMessage.ExteriorLightsAsWrittenLeaksStaleBits | src/artery/application/CaService.cc:212-215 | with 0x80 left in the allocated octet, the CAM also reports low beam headlights on; it differs from the intended octet |
| CamMessage.ExteriorLights | src/artery/application/CaService.cc:212-215 | the intended octet: of the eight ExteriorLights bits, exactly `daytimeRunningLightsOn` (bit 4) is set |
| CamMessage.AddLowFrequencyContainerAsWritten | src/artery/application/CaService.cc:205-216 | as written: the container is attached with the default vehicle role, daytime running lights reported on, the other seven light bits taken from the allocated octet, and the rest of the CAM unchanged |
| CamMessage.AddLowFrequencyContainer | src/artery/application/CaService.cc:205-216 | the container is attached with the default vehicle role and only the daytime running lights on, and the rest of the CAM is unchanged |
| CamMessage.CreateCam | src/artery/application/CaService.cc:145-185 | the built CAM has no low frequency container; it carries the station id and the given generation time; the reader gets the speed back up to cm truncation; the direction follows the speed's sign; speed confidence is 3 cm/s; acceleration uses the sentinel rule |
| CaService.Initial | src/artery/application/CaService.cc:44-63 | after construction and initialisation the state is valid, the period is T_GenCamMax, the count is 0, the last CAM time is the start time, and the low frequency container is already due |
| CaService.GenCamDcc | src/artery/application/CaService.cc:138-143 | the congestion floor always lies in [100 ms, 1000 ms], equals the DCC delay inside that range, and is the nearer bound outside it |
| CaService.SendCam | src/artery/application/CaService.cc:108-120 | a send records the current position, speed, heading and time as the new snapshot. It attaches the low frequency container, and records its time, exactly when 500 ms have passed since the last one. It leaves period and count alone |
| CaService.Step | src/artery/application/CaService.cc:83-106 | a wait leaves the state unchanged. Below the congestion floor the check always waits. A send happens at least T_GenCamMin after the last CAM and is the `SendCam` emission. The last CAM time never decreases |
| CaService.CongestionFloorHolds | src/artery/application/CaService.cc:89-92 | below the congestion floor nothing is sent and no part of the state changes, whatever the kinematics |
| CaService.KinematicChangeSends | src/artery/application/CaService.cc:93-98 | with the floor met and any predicate holding, a CAM is sent, the period becomes min(elapsed, T_GenCamMax), and the count becomes 0 |
| CaService.PeriodicSendCounts | src/artery/application/CaService.cc:99-104 | with the floor met and no predicate holding, a CAM is sent exactly when the period has elapsed. It adds one to the count. At a count of 3 it sets the period to T_GenCamMax; below 3 the period is kept |
| CaService.SendRecordsSnapshot | src/artery/application/CaService.cc:113-120 | every CAM, whatever its trigger, records its kinematics and time. It carries the low frequency container, and updates that container's time, exactly when 500 ms have passed since the last one |
| CaService.StepPreservesValid | src/artery/application/CaService.cc:92-104 | each check preserves the invariant: period in [100, 1000] ms, period at the maximum once the count reaches 3, and the last low frequency container within 500 ms before the last CAM |
| CaService.SendAtLatestAfterMax | src/artery/application/CaService.cc:92-104 | from a valid state, a check 1000 ms or more after the last CAM always sends |
| CaService.FirstCamCarriesLowFrequency | src/artery/application/CaService.cc:61-63 | the first CAM after initialisation carries the low frequency container |
| CaService.RunPreservesValid | src/artery/application/CaService.cc:83-106 | the invariant holds after any sequence of checks from a valid state |
| CaService.PeriodWithinBounds | src/artery/application/CaService.cc:47-49 | from initialisation on, after any sequence of checks, T_GenCamMin ≤ genCam ≤ T_GenCamMax |
| CaService.LastCamTimestampMonotone | src/artery/application/CaService.cc:116 | the last CAM timestamp never decreases along any sequence of checks |
| CaService.CounterCountsPeriodicSends | src/artery/application/CaService.cc:98-101 | along a run without a kinematics-triggered CAM, the count grows by exactly the number of periodic CAMs |
| CaService.BackOffAfterLimit | src/artery/application/CaService.cc:99-104 | after at least 3 periodic CAMs with no kinematics-triggered CAM among them, the period is T_GenCamMax |
| CaScenarios.StationaryVehicleSendsEverySecond | src/artery/application/CaService.cc:99-104 | a stationary vehicle with period 1000 ms and DCC delay 100 ms waits at the nine checks 100 ms apart and sends a periodic CAM at the tenth |
| CaScenarios.HeadingChangeSharpensPeriod | src/artery/application/CaService.cc:93-98 | a 5° turn seen 300 ms after the last CAM sends a CAM, sets the period to 300 ms and resets the count |
| CaScenarios.LowFrequencyCadence | src/artery/application/CaService.cc:117-120 | CAMs at 100, 300 and 600 ms after start carry the low frequency container, omit it, and carry it again |

## Left out

- ASN.1 validation (`validate`, src/artery/application/CaService.cc:197-200 and :218-221) is not modelled. It is an external codec whose schema is not part of this model. The model assumes the builder's output passes.
- The reception path `indicate` (src/artery/application/CaService.cc:72-81) is left out. It is a packet visitor plus a local dynamic map update through library calls.
- The BTP request envelope, payload construction and the "sent" signal (src/artery/application/CaService.cc:122-135) are left out. They are I/O with constant fields.
- The TAI time conversion and the DCC scheduler query are inputs. The model takes the TAI millisecond count as `taiMillis`. It takes the DCC delay already converted to whole milliseconds as `dccDelay`.
- `trigger` (src/artery/application/CaService.cc:67-70) only reads the simulation clock. Its time is the `now` input of `Step`.
- Latitude, longitude, heading value, curvature and yaw rate are not modelled. They are floating-point unit conversions.
- The CAM fields fixed to constants or "unavailable" are not modelled: header, station type, altitude, confidence ellipse, heading confidence (:173), acceleration confidence (:185), curvature confidence (:188), curvature calculation mode (:189), vehicle length and width.
- The geographic `distance` function is replaced by exact planar squared distance on integer millimetres.
- Kinematic readings are integers. Sub-millimetre and sub-microdegree fractions of the source's doubles are not represented.
- Times are whole milliseconds. The simulation time type has sub-millisecond resolution, so in the source `min(T_elapsed, T_GenCamMax)` (:97) can be a fractional period; in the model it cannot.
- The last-CAM snapshot before the first CAM is all zero in `CaService.Initial`: position (0, 0), speed 0, heading 0. The constructor and `initialize` (:44-63) do not set these fields; their default values come from the class header, which is not part of this model. This choice decides the first check: a vehicle more than 4 m from the origin sends a position-triggered CAM there and sharpens the period to the elapsed time.
- CamMessage.AccelerationRoundTrip: is a round trip of the raw count only, not of the physical value. The count is in whole m/s² while the schema reads it in 0.1 m/s², a factor of ten that the model reproduces as written (see `CamMessage.AccelerationCountInWholeMetres`) rather than corrects.
- The low-dynamics count is an unbounded `nat`. The header that declares its width is not part of this model.
- src/artery/storyboard/SpeedDifferenceCondition.h is not part of this model. It declares only constructors and pure-virtual conditions of the separate storyboard subsystem.
- CaService.SendCam: attaches the corrected container (`CamMessage.AddLowFrequencyContainer`), so every modelled CAM reports exterior lights of exactly 0x08. The source's `sendCam` (:118) calls the as-written builder, whose other seven bits are the allocated octet's indeterminate content; the model has no value for that content, and the as-written behaviour is stated separately by `CamMessage.AddLowFrequencyContainerAsWritten`.
- CamMessage.CreateCam: does not state that the speed value fits the schema's SpeedValue range. The source does not clamp it, and that range belongs to the validation left out above.

## Findings

| source | as written | input that shows it | evidently intended | confidence | as-written member | corrected member |
|---|---|---|---|---|---|---|
| src/artery/application/CaService.cc:212-215 | the exterior-lights octet comes from `malloc`; the daytime-running-lights bit is OR-ed into its indeterminate content | the allocator leaves 0x80 in the octet: the CAM also reports low beam headlights on (`CamMessage.ExteriorLightsAsWrittenLeaksStaleBits`) | the octet holds the daytime-running-lights bit alone (0x08) | medium, not executed | CamMessage.ExteriorLightsAsWritten | CamMessage.ExteriorLights |

`CaService.SendCam` builds the low frequency container with the corrected
`CamMessage.AddLowFrequencyContainer`.
