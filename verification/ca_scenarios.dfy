/**
 Worked runs of the CAM generation rules: a stationary vehicle, a heading
 change between periodic CAMs, and the cadence of the low frequency
 container. Each is stated for any vehicle and any starting time.
 */
module CaScenarios {
  import opened Units
  import opened Dynamics
  import opened CamMessage
  import opened CaService

  /** The kinematic snapshot of `s` is exactly the reading `k`. */
  predicate SnapshotIs(s: GenState, k: Kinematics)
  {
    s.lastCamPosition == k.position && s.lastCamSpeed == k.speed && s.lastCamHeading == k.heading
  }

  /**
   Stationary vehicle, DCC delay 100 ms, checks every 100 ms after a CAM with
   the period at its maximum: the nine checks after the CAM wait, the tenth
   (1000 ms after it) sends a periodic CAM.
   */
  lemma StationaryVehicleSendsEverySecond(s: GenState, k: Kinematics, i: nat, tai: nat)
    requires s.genCam == GenCamMax && SnapshotIs(s, k)
    requires 1 <= i <= 10
    ensures i < 10 ==> Step(s, s.lastCamTimestamp + 100 * i, 100, k, tai).decision == Wait
    ensures i == 10 ==> Step(s, s.lastCamTimestamp + 100 * i, 100, k, tai).decision == Send(PeriodElapsed, SendCam(s, s.lastCamTimestamp + 1000, k, tai).cam)
  {
  }

  /**
   Same setup, but the heading has turned by 5 degrees at the check 300 ms
   after the CAM: that check sends and sharpens the period to 300 ms.
   */
  lemma HeadingChangeSharpensPeriod(s: GenState, k: Kinematics, tai: nat)
    requires s.genCam == GenCamMax && SnapshotIs(s, k)
    ensures Step(s, s.lastCamTimestamp + 300, 100, k.(heading := k.heading + 5_000_000), tai).decision.Send?
    ensures Step(s, s.lastCamTimestamp + 300, 100, k.(heading := k.heading + 5_000_000), tai).next.genCam == 300
    ensures Step(s, s.lastCamTimestamp + 300, 100, k.(heading := k.heading + 5_000_000), tai).next.lowDynamicsCounter == 0
  {
  }

  /**
   Low frequency cadence from initialisation at `start` for a vehicle whose
   speed jumps by 1 m/s before every check: the CAM 100 ms after start
   carries the container, the one 200 ms later does not, the one 500 ms
   after the first does again.
   */
  lemma LowFrequencyCadence(start: Millis, k: Kinematics, tai: nat)
    ensures var k1 := k.(speed := 1_000);
            var k2 := k.(speed := 2_000);
            var k3 := k.(speed := 3_000);
            var r1 := Step(Initial(start), start + 100, 100, k1, tai);
            var r2 := Step(r1.next, start + 300, 100, k2, tai);
            var r3 := Step(r2.next, start + 600, 100, k3, tai);
            && r1.decision.Send? && r1.decision.cam.lowFrequency.Some?
            && r2.decision.Send? && r2.decision.cam.lowFrequency.None?
            && r3.decision.Send? && r3.decision.cam.lowFrequency.Some?
  {
  }
}
