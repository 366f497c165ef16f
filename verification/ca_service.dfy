/**
 The CAM generation rules of the CA service (section 6.1.3 of
 ETSI EN 302 637-2 V1.3.2) as a pure state machine.

 The service keeps an adaptive generation period `genCam` within
 [T_GenCamMin, T_GenCamMax] = [100 ms, 1000 ms], a count of consecutive
 periodic (not kinematics-triggered) CAMs, and a snapshot of the kinematics
 and time at the last CAM. On every check it either waits or sends one CAM;
 a wait leaves the state untouched.
 */
module CaService {
  import opened Units
  import opened Dynamics
  import opened CamMessage

  /** T_GenCamMin */
  const GenCamMin: Millis := 100

  /** T_GenCamMax */
  const GenCamMax: Millis := 1000

  /** After this many consecutive periodic CAMs the period backs off to T_GenCamMax. */
  const GenCamLowDynamicsLimit: nat := 3

  /** Minimum gap between two CAMs carrying the low frequency container. */
  const LowFrequencyContainerInterval: Millis := 500

  /** The service's generation state. */
  datatype GenState = GenState(
    genCam: Millis,
    lowDynamicsCounter: nat,
    lastCamTimestamp: Millis,
    lastLowCamTimestamp: Millis,
    lastCamPosition: Position,
    lastCamSpeed: MillimetresPerSecond,
    lastCamHeading: Microdegrees)

  /** Why a CAM went out. */
  datatype Trigger = KinematicChange | PeriodElapsed

  datatype Decision = Wait | Send(trigger: Trigger, cam: Cam)

  datatype StepResult = StepResult(decision: Decision, next: GenState)

  /** The inputs of one triggering check. */
  datatype Tick = Tick(
    now: Millis,
    dccDelay: Millis,
    kinematics: Kinematics,
    taiMillis: nat)

  /** A CAM just built and the state after recording it. */
  datatype Emission = Emission(cam: Cam, next: GenState)

  /**
   What every reachable state satisfies: the period within its bounds, the
   period at its maximum once the low-dynamics count has reached its limit,
   and the last low frequency container no more than 500 ms before the
   last CAM.
   */
  predicate Valid(s: GenState)
  {
    && GenCamMin <= s.genCam <= GenCamMax
    && (s.lowDynamicsCounter >= GenCamLowDynamicsLimit ==> s.genCam == GenCamMax)
    && s.lastLowCamTimestamp <= s.lastCamTimestamp <= s.lastLowCamTimestamp + LowFrequencyContainerInterval
  }

  /**
   The state after construction and initialisation at time `now`: period at
   its maximum, count zero, last CAM "now" so a freshly inserted vehicle does
   not see a huge elapsed time, the last low frequency container one interval
   earlier, and a default (all-zero) kinematic snapshot.
   */
  function Initial(now: Millis): (s: GenState)
    ensures Valid(s)
    ensures s.genCam == GenCamMax && s.lowDynamicsCounter == 0
    ensures s.lastCamTimestamp == now
    ensures now - s.lastLowCamTimestamp >= LowFrequencyContainerInterval
  {
    GenState(GenCamMax, 0, now, now - LowFrequencyContainerInterval, Position(0, 0), 0, 0)
  }

  /** T_GenCamDcc: the DCC delay clamped to [T_GenCamMin, T_GenCamMax]. */
  function GenCamDcc(dccDelay: Millis): (floor: Millis)
    ensures GenCamMin <= floor <= GenCamMax
    ensures GenCamMin <= dccDelay <= GenCamMax ==> floor == dccDelay
    ensures dccDelay < GenCamMin ==> floor == GenCamMin
    ensures dccDelay > GenCamMax ==> floor == GenCamMax
  {
    Min(GenCamMax, Max(GenCamMin, dccDelay))
  }

  /** Any of the three kinematic predicates holds against the last CAM's snapshot. */
  predicate KinematicsChanged(s: GenState, k: Kinematics)
  {
    || HeadingChanged(s.lastCamHeading, k.heading)
    || PositionChanged(s.lastCamPosition, k.position)
    || SpeedChanged(s.lastCamSpeed, k.speed)
  }

  /** The low frequency container is due at `now`. */
  predicate LowFrequencyDue(s: GenState, now: Millis)
  {
    now - s.lastLowCamTimestamp >= LowFrequencyContainerInterval
  }

  /**
   Build a CAM and record it: the kinematic snapshot and `now` become the
   last CAM's, and the low frequency container is attached (and its time
   recorded) exactly when it is due. Period and count are left alone.
   */
  function SendCam(s: GenState, now: Millis, k: Kinematics, taiMillis: nat): (e: Emission)
    ensures e.cam.(lowFrequency := None) == CreateCam(k, GenerationDeltaTime(taiMillis))
    ensures e.cam.lowFrequency.Some? <==> LowFrequencyDue(s, now)
    ensures e.cam.lowFrequency.Some? ==> e.cam == AddLowFrequencyContainer(CreateCam(k, GenerationDeltaTime(taiMillis)))
    ensures e.next.lastCamTimestamp == now
    ensures e.next.lastCamPosition == k.position
    ensures e.next.lastCamSpeed == k.speed
    ensures e.next.lastCamHeading == k.heading
    ensures e.next.lastLowCamTimestamp == if LowFrequencyDue(s, now) then now else s.lastLowCamTimestamp
    ensures e.next.genCam == s.genCam && e.next.lowDynamicsCounter == s.lowDynamicsCounter
  {
    var cam := CreateCam(k, GenerationDeltaTime(taiMillis));
    var recorded := s.(lastCamPosition := k.position, lastCamSpeed := k.speed,
                       lastCamHeading := k.heading, lastCamTimestamp := now);
    if LowFrequencyDue(s, now) then
      Emission(AddLowFrequencyContainer(cam), recorded.(lastLowCamTimestamp := now))
    else
      Emission(cam, recorded)
  }

  /**
   One triggering check at time `now`, given the DCC delay, the current
   kinematics and the TAI millisecond count of the generation time.
   */
  function Step(s: GenState, now: Millis, dccDelay: Millis, k: Kinematics, taiMillis: nat): (r: StepResult)
    ensures r.decision.Wait? ==> r.next == s
    ensures now - s.lastCamTimestamp < GenCamDcc(dccDelay) ==> r.decision.Wait?
    ensures r.decision.Send? ==> now - s.lastCamTimestamp >= GenCamMin
    ensures r.next.lastCamTimestamp >= s.lastCamTimestamp
    ensures r.decision.Send? ==> Emission(r.decision.cam, r.next.(genCam := s.genCam, lowDynamicsCounter := s.lowDynamicsCounter))
                                 == SendCam(s, now, k, taiMillis)
  {
    var elapsed := now - s.lastCamTimestamp;
    if elapsed >= GenCamDcc(dccDelay) then
      if KinematicsChanged(s, k) then
        var e := SendCam(s, now, k, taiMillis);
        StepResult(Send(KinematicChange, e.cam), e.next.(genCam := Min(elapsed, GenCamMax), lowDynamicsCounter := 0))
      else if elapsed >= s.genCam then
        var e := SendCam(s, now, k, taiMillis);
        var counter := s.lowDynamicsCounter + 1;
        var genCam := if counter >= GenCamLowDynamicsLimit then GenCamMax else s.genCam;
        StepResult(Send(PeriodElapsed, e.cam), e.next.(genCam := genCam, lowDynamicsCounter := counter))
      else
        StepResult(Wait, s)
    else
      StepResult(Wait, s)
  }

  function StepAt(s: GenState, t: Tick): StepResult
  {
    Step(s, t.now, t.dccDelay, t.kinematics, t.taiMillis)
  }

  /**
   Congestion floor: below T_GenCamDcc since the last CAM nothing is sent,
   whatever the kinematics, and the state (period, count, snapshot and both
   timestamps) stays exactly as it was.
   */
  lemma CongestionFloorHolds(s: GenState, t: Tick)
    requires t.now - s.lastCamTimestamp < GenCamDcc(t.dccDelay)
    ensures StepAt(s, t) == StepResult(Wait, s)
  {
  }

  /**
   A kinematics-triggered CAM: with the floor met and any predicate holding,
   a CAM is sent, the period becomes the elapsed time capped at
   T_GenCamMax, and the count restarts at zero.
   */
  lemma KinematicChangeSends(s: GenState, t: Tick)
    requires t.now - s.lastCamTimestamp >= GenCamDcc(t.dccDelay)
    requires KinematicsChanged(s, t.kinematics)
    ensures StepAt(s, t).decision.Send? && StepAt(s, t).decision.trigger == KinematicChange
    ensures StepAt(s, t).next.genCam == Min(t.now - s.lastCamTimestamp, GenCamMax)
    ensures StepAt(s, t).next.lowDynamicsCounter == 0
  {
  }

  /**
   Without a kinematic change and with the floor met, a CAM is sent exactly
   when the current period has elapsed. Such a periodic CAM adds one to the
   count and, once the count reaches 3, sets the period to T_GenCamMax;
   before that the period is kept.
   */
  lemma PeriodicSendCounts(s: GenState, t: Tick)
    ensures t.now - s.lastCamTimestamp >= GenCamDcc(t.dccDelay) && !KinematicsChanged(s, t.kinematics) ==>
              (StepAt(s, t).decision.Send? <==> t.now - s.lastCamTimestamp >= s.genCam)
    ensures t.now - s.lastCamTimestamp >= GenCamDcc(t.dccDelay) && !KinematicsChanged(s, t.kinematics) &&
            StepAt(s, t).decision.Send? ==>
              && StepAt(s, t).decision.trigger == PeriodElapsed
              && StepAt(s, t).next.lowDynamicsCounter == s.lowDynamicsCounter + 1
              && (s.lowDynamicsCounter + 1 >= GenCamLowDynamicsLimit ==> StepAt(s, t).next.genCam == GenCamMax)
              && (s.lowDynamicsCounter + 1 < GenCamLowDynamicsLimit ==> StepAt(s, t).next.genCam == s.genCam)
  {
  }

  /**
   Every CAM, whatever triggered it, records the kinematics it was built
   from and its time as the new snapshot, and carries the low frequency
   container (recording its time) exactly when 500 ms have passed since the
   last one.
   */
  lemma SendRecordsSnapshot(s: GenState, t: Tick)
    ensures StepAt(s, t).decision.Send? ==>
              && StepAt(s, t).next.lastCamTimestamp == t.now
              && StepAt(s, t).next.lastCamPosition == t.kinematics.position
              && StepAt(s, t).next.lastCamSpeed == t.kinematics.speed
              && StepAt(s, t).next.lastCamHeading == t.kinematics.heading
    ensures StepAt(s, t).decision.Send? ==>
              (StepAt(s, t).decision.cam.lowFrequency.Some? <==>
               t.now - s.lastLowCamTimestamp >= LowFrequencyContainerInterval)
    ensures StepAt(s, t).decision.Send? ==>
              StepAt(s, t).next.lastLowCamTimestamp ==
              if StepAt(s, t).decision.cam.lowFrequency.Some? then t.now else s.lastLowCamTimestamp
  {
  }

  /** Every triggering check keeps the state valid. */
  lemma StepPreservesValid(s: GenState, t: Tick)
    requires Valid(s)
    ensures Valid(StepAt(s, t).next)
  {
  }

  /**
   T_GenCamMax is never exceeded between CAMs while the service is checked:
   once 1000 ms have passed since the last CAM, a check always sends.
   */
  lemma SendAtLatestAfterMax(s: GenState, t: Tick)
    requires Valid(s)
    requires t.now - s.lastCamTimestamp >= GenCamMax
    ensures StepAt(s, t).decision.Send?
  {
  }

  /** Because of the initial timestamps, the first CAM carries the low frequency container. */
  lemma FirstCamCarriesLowFrequency(start: Millis, t: Tick)
    ensures StepAt(Initial(start), t).decision.Send? ==> StepAt(Initial(start), t).decision.cam.lowFrequency.Some?
  {
  }

  /** The final state after a sequence of checks. */
  function Run(s: GenState, ticks: seq<Tick>): GenState
    decreases |ticks|
  {
    if |ticks| == 0 then s else Run(StepAt(s, ticks[0]).next, ticks[1..])
  }

  /** The decisions taken along a sequence of checks. */
  function Decisions(s: GenState, ticks: seq<Tick>): seq<Decision>
    decreases |ticks|
  {
    if |ticks| == 0 then [] else [StepAt(s, ticks[0]).decision] + Decisions(StepAt(s, ticks[0]).next, ticks[1..])
  }

  /** How many of the decisions sent a CAM for the given reason. */
  function CountSends(ds: seq<Decision>, trigger: Trigger): nat
    decreases |ds|
  {
    if |ds| == 0 then 0
    else (if ds[0].Send? && ds[0].trigger == trigger then 1 else 0) + CountSends(ds[1..], trigger)
  }

  /** Every reachable state is valid: the invariant holds along any run. */
  lemma {:induction false} RunPreservesValid(s: GenState, ticks: seq<Tick>)
    requires Valid(s)
    ensures Valid(Run(s, ticks))
    decreases |ticks|
  {
    if |ticks| > 0 {
      StepPreservesValid(s, ticks[0]);
      RunPreservesValid(StepAt(s, ticks[0]).next, ticks[1..]);
    }
  }

  /** In particular the period stays within [T_GenCamMin, T_GenCamMax] from initialisation on. */
  lemma {:induction false} PeriodWithinBounds(start: Millis, ticks: seq<Tick>)
    ensures GenCamMin <= Run(Initial(start), ticks).genCam <= GenCamMax
  {
    RunPreservesValid(Initial(start), ticks);
  }

  /** The last CAM's timestamp never decreases along a run. */
  lemma {:induction false} LastCamTimestampMonotone(s: GenState, ticks: seq<Tick>)
    ensures Run(s, ticks).lastCamTimestamp >= s.lastCamTimestamp
    decreases |ticks|
  {
    if |ticks| > 0 {
      LastCamTimestampMonotone(StepAt(s, ticks[0]).next, ticks[1..]);
    }
  }

  /**
   Along a run with no kinematics-triggered CAM, the count grows by exactly
   the number of periodic CAMs.
   */
  lemma {:induction false} CounterCountsPeriodicSends(s: GenState, ticks: seq<Tick>)
    requires CountSends(Decisions(s, ticks), KinematicChange) == 0
    ensures Run(s, ticks).lowDynamicsCounter ==
            s.lowDynamicsCounter + CountSends(Decisions(s, ticks), PeriodElapsed)
    decreases |ticks|
  {
    if |ticks| > 0 {
      var r := StepAt(s, ticks[0]);
      var ds := Decisions(s, ticks);
      assert ds[0] == r.decision && ds[1..] == Decisions(r.next, ticks[1..]);
      CounterCountsPeriodicSends(r.next, ticks[1..]);
    }
  }

  /**
   Back-off: after 3 periodic CAMs with no kinematics-triggered CAM among
   them, the period is T_GenCamMax.
   */
  lemma {:induction false} BackOffAfterLimit(s: GenState, ticks: seq<Tick>)
    requires Valid(s)
    ensures CountSends(Decisions(s, ticks), KinematicChange) == 0 &&
            CountSends(Decisions(s, ticks), PeriodElapsed) >= GenCamLowDynamicsLimit ==>
              Run(s, ticks).genCam == GenCamMax
  {
    if CountSends(Decisions(s, ticks), KinematicChange) == 0 {
      CounterCountsPeriodicSends(s, ticks);
    }
    RunPreservesValid(s, ticks);
  }
}
