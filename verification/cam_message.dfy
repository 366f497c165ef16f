/**
 The parts of a Cooperative Awareness Message the CA service computes rather
 than copies: the wrapped generation time, the speed magnitude and drive
 direction taken from the sign of the speed, the longitudinal acceleration
 with its "unavailable" sentinel, and the low frequency container.

 Field values follow the integer encodings of ETSI TS 102 894-2 (the common
 data dictionary of the CAM): speed in 0.01 m/s, longitudinal acceleration
 with `unavailable` = 161, exterior lights as an 8-bit BIT STRING whose bit 0
 is the most significant bit of the octet.
 */
module CamMessage {
  import opened Units
  import opened Dynamics

  datatype Option<T> = None | Some(value: T)

  /** The generation time is handed to the message builder as a `uint16_t`. */
  const GenerationDeltaTimeModulus: nat := 65536

  type Uint16 = x: nat | x < GenerationDeltaTimeModulus

  /** `LongitudinalAccelerationValue_unavailable` */
  const LongitudinalAccelerationUnavailable: int := 161

  /**
   The service reads the acceleration in m/s^2 and accepts it when it lies in
   [-160.0, 161.0]; these are those bounds in the model's mm/s^2.
   */
  const AccelerationLowest: MillimetresPerSecondSquared := -160_000
  const AccelerationHighest: MillimetresPerSecondSquared := 161_000

  /** `SpeedConfidence_equalOrWithinOneCentimeterPerSec * 3` */
  const SpeedConfidenceThreeCentimetresPerSecond: nat := 3

  /** `VehicleRole_default` */
  const VehicleRoleDefault: nat := 0

  /** Bit index of `daytimeRunningLightsOn` in the ExteriorLights bit string. */
  const DaytimeRunningLightsOn: nat := 4

  /** Bit index of `lowBeamHeadlightsOn` in the ExteriorLights bit string. */
  const LowBeamHeadlightsOn: nat := 0

  datatype DriveDirection = Forward | Backward

  datatype LowFrequencyContainer = LowFrequencyContainer(vehicleRole: nat, exteriorLights: bv8)

  /**
   The modelled fields of a CAM. The reference position, heading, curvature,
   yaw rate and the fields fixed to "unavailable" are not part of this model.
   */
  datatype Cam = Cam(
    stationId: nat,
    generationDeltaTime: Uint16,
    speedValue: nat,
    speedConfidence: nat,
    driveDirection: DriveDirection,
    longitudinalAccelerationValue: int,
    lowFrequency: Option<LowFrequencyContainer>)

  /**
   The TAI millisecond count squeezed into the `uint16_t` the builder takes:
   the same instant modulo 65536 ms.
   */
  function GenerationDeltaTime(taiMillis: nat): (t: Uint16)
    ensures (taiMillis - t) % GenerationDeltaTimeModulus == 0
    ensures taiMillis < GenerationDeltaTimeModulus ==> t == taiMillis
  {
    taiMillis % GenerationDeltaTimeModulus
  }

  /**
   Speed magnitude in whole centimetres per second, the fraction cut off as
   the conversion of the double quotient to an integer field does.
   */
  function SpeedValue(speed: MillimetresPerSecond): (r: nat)
    ensures r * 10 <= Abs(speed) < (r + 1) * 10
  {
    TruncDiv(Abs(speed), 10)
  }

  /** Forward exactly when the signed speed is not negative. */
  function Direction(speed: MillimetresPerSecond): (d: DriveDirection)
    ensures d == Forward <==> speed >= 0
  {
    if speed >= 0 then Forward else Backward
  }

  /** The signed speed a receiver reads back, in centimetres per second. */
  function DecodeSpeed(speedValue: nat, direction: DriveDirection): int
  {
    match direction
    case Forward => speedValue
    case Backward => -(speedValue as int)
  }

  /**
   The longitudinal acceleration value: inside [-160.0, 161.0] (as read in
   m/s^2) the value itself with its fraction cut off toward zero, outside it
   the "unavailable" sentinel. Out-of-range readings are never clamped.
   */
  function LongitudinalAccelerationValue(acceleration: MillimetresPerSecondSquared): (r: int)
    ensures -160 <= r <= LongitudinalAccelerationUnavailable
    ensures AccelerationLowest <= acceleration <= AccelerationHighest ==>
              Abs(r) * 1000 <= Abs(acceleration) < (Abs(r) + 1) * 1000 &&
              (acceleration >= 0 ==> r >= 0) && (acceleration <= 0 ==> r <= 0)
    ensures !(AccelerationLowest <= acceleration <= AccelerationHighest) ==>
              r == LongitudinalAccelerationUnavailable
  {
    if AccelerationLowest <= acceleration <= AccelerationHighest then
      TruncDiv(acceleration, 1000)
    else
      LongitudinalAccelerationUnavailable
  }

  /**
   The raw count a receiver reads from the field: `None` for the sentinel,
   the integer otherwise. The schema's unit for that count is 0.1 m/s^2.
   */
  function DecodeLongitudinalAcceleration(value: int): Option<int>
  {
    if value == LongitudinalAccelerationUnavailable then None else Some(value)
  }

  /** Bit `i` of an 8-bit BIT STRING (bit 0 is the most significant). */
  predicate LightBit(lights: bv8, i: nat)
    requires i < 8
  {
    (lights >> (7 - i)) & 1 == 1
  }

  /** The daytime-running-lights bit on its own. */
  const DaytimeRunningLightsMask: bv8 := 1 << (7 - DaytimeRunningLightsOn)

  /**
   The exterior-lights octet as the service fills it: the octet comes from
   `malloc`, so its prior content is whatever the allocator returned, and the
   daytime-running-lights bit is OR-ed into it: that bit is set, and every
   other bit is whatever the octet held before.
   */
  function ExteriorLightsAsWritten(uninitialised: bv8): (lights: bv8)
    ensures LightBit(lights, DaytimeRunningLightsOn)
    ensures forall i: nat | i < 8 && i != DaytimeRunningLightsOn ::
              LightBit(lights, i) == LightBit(uninitialised, i)
  {
    uninitialised | DaytimeRunningLightsMask
  }

  /** The exterior-lights octet with the daytime running lights alone on. */
  function ExteriorLights(): (lights: bv8)
    ensures forall i: nat | i < 8 :: LightBit(lights, i) <==> i == DaytimeRunningLightsOn
  {
    var lights := DaytimeRunningLightsMask;
    assert !LightBit(lights, 0) && !LightBit(lights, 1) && !LightBit(lights, 2) && !LightBit(lights, 3);
    assert LightBit(lights, 4);
    assert !LightBit(lights, 5) && !LightBit(lights, 6) && !LightBit(lights, 7);
    lights
  }

  /**
   As written, a stale allocator byte leaks into the message: with 0x80 left
   in the octet the CAM also reports the low beam headlights on, so the
   octet differs from the one carrying daytime running lights alone.
   */
  lemma ExteriorLightsAsWrittenLeaksStaleBits()
    ensures LightBit(ExteriorLightsAsWritten(0x80), LowBeamHeadlightsOn)
    ensures ExteriorLightsAsWritten(0x80) != ExteriorLights()
    ensures ExteriorLightsAsWritten(0) == ExteriorLights()
  {
  }

  /**
   The high frequency part of a CAM built from one kinematic reading, without
   the low frequency container.
   */
  function CreateCam(k: Kinematics, generationDeltaTime: Uint16): (cam: Cam)
    ensures cam.lowFrequency == None
    ensures cam.stationId == k.stationId && cam.generationDeltaTime == generationDeltaTime
    ensures DecodeSpeed(cam.speedValue, cam.driveDirection) == TruncDiv(k.speed, 10)
    ensures cam.driveDirection == Forward <==> k.speed >= 0
    ensures cam.speedConfidence == SpeedConfidenceThreeCentimetresPerSecond
    ensures cam.longitudinalAccelerationValue == LongitudinalAccelerationValue(k.acceleration)
  {
    Cam(k.stationId, generationDeltaTime, SpeedValue(k.speed),
        SpeedConfidenceThreeCentimetresPerSecond, Direction(k.speed),
        LongitudinalAccelerationValue(k.acceleration), None)
  }

  /** Attach the low frequency container: default role, daytime running lights on. */
  function AddLowFrequencyContainer(cam: Cam): (withLf: Cam)
    ensures withLf.lowFrequency.Some?
    ensures withLf.lowFrequency.value.vehicleRole == VehicleRoleDefault
    ensures forall i: nat | i < 8 ::
              LightBit(withLf.lowFrequency.value.exteriorLights, i) <==> i == DaytimeRunningLightsOn
    ensures withLf.(lowFrequency := None) == cam.(lowFrequency := None)
  {
    cam.(lowFrequency := Some(LowFrequencyContainer(VehicleRoleDefault, ExteriorLights())))
  }

  /**
   The low frequency container as the service builds it, with the octet's
   prior content as a parameter: the default vehicle role, the daytime
   running lights always reported on, every other light bit left as the
   octet held it, and nothing else of the CAM changed.
   */
  function AddLowFrequencyContainerAsWritten(cam: Cam, uninitialised: bv8): (withLf: Cam)
    ensures withLf.lowFrequency.Some?
    ensures withLf.lowFrequency.value.vehicleRole == VehicleRoleDefault
    ensures LightBit(withLf.lowFrequency.value.exteriorLights, DaytimeRunningLightsOn)
    ensures forall i: nat | i < 8 && i != DaytimeRunningLightsOn ::
              LightBit(withLf.lowFrequency.value.exteriorLights, i) == LightBit(uninitialised, i)
    ensures withLf.(lowFrequency := None) == cam.(lowFrequency := None)
  {
    cam.(lowFrequency := Some(LowFrequencyContainer(VehicleRoleDefault, ExteriorLightsAsWritten(uninitialised))))
  }

  /**
   Speed round trip: a receiver recovers the signed speed truncated to whole
   centimetres per second, and in particular its sign whenever the magnitude
   reaches 1 cm/s.
   */
  lemma SpeedRoundTrip(speed: MillimetresPerSecond)
    ensures DecodeSpeed(SpeedValue(speed), Direction(speed)) == TruncDiv(speed, 10)
    ensures Abs(speed) >= 10 ==> (DecodeSpeed(SpeedValue(speed), Direction(speed)) > 0 <==> speed > 0)
  {
  }

  /**
   The sentinel is produced exactly for readings below -160.0 and from 161.0
   upward: the in-range reading 161.0 itself truncates to 161, which the
   schema reserves for "unavailable".
   */
  lemma AccelerationUnavailableExactly(acceleration: MillimetresPerSecondSquared)
    ensures LongitudinalAccelerationValue(acceleration) == LongitudinalAccelerationUnavailable <==>
            acceleration < AccelerationLowest || acceleration >= AccelerationHighest
  {
  }

  /**
   Raw-count round trip: the field holds the reading truncated toward zero to
   whole m/s^2 for every reading in [-160.0, 161.0), and "unavailable" for
   every other one.
   */
  lemma AccelerationRoundTrip(acceleration: MillimetresPerSecondSquared)
    ensures AccelerationLowest <= acceleration < AccelerationHighest ==>
              DecodeLongitudinalAcceleration(LongitudinalAccelerationValue(acceleration)) ==
              Some(TruncDiv(acceleration, 1000))
    ensures !(AccelerationLowest <= acceleration < AccelerationHighest) ==>
              DecodeLongitudinalAcceleration(LongitudinalAccelerationValue(acceleration)) == None
  {
  }

  /**
   The count is written in whole m/s^2 although the schema reads it in
   0.1 m/s^2 (`pointOneMeterPerSecSquaredForward` is 1): a 2.5 m/s^2 reading
   goes out as 2, which a receiver takes for 0.2 m/s^2 rather than the 25
   tenths it is, and a 20 m/s^2 reading goes out as a value rather than
   "unavailable".
   */
  lemma AccelerationCountInWholeMetres()
    ensures LongitudinalAccelerationValue(2_500) == 2
    ensures LongitudinalAccelerationValue(2_500) != TruncDiv(2_500, 100)
    ensures LongitudinalAccelerationValue(20_000) == 20
  {
  }

  /**
   A reading of 200 m/s^2 becomes the sentinel rather than the boundary
   value 161.
   */
  lemma AccelerationNotClamped()
    ensures LongitudinalAccelerationValue(200_000) == LongitudinalAccelerationUnavailable
    ensures LongitudinalAccelerationValue(-200_000) == LongitudinalAccelerationUnavailable
    ensures LongitudinalAccelerationValue(-2_500) == -2
  {
  }
}
