/**
 The three kinematic triggering predicates of the CA service (heading,
 position and speed change since the last CAM), section 6.1.3 of
 ETSI EN 302 637-2 V1.3.2.

 Each is a strict comparison of a plain difference against a fixed
 threshold: a change exactly at the threshold does not trigger, and the
 heading difference is not taken modulo 360 degrees.
 */
module Dynamics {
  import opened Units

  /** A planar position, coordinates in millimetres. */
  datatype Position = Position(x: Millimetres, y: Millimetres)

  /**
   One reading of the vehicle data provider: what the service consults when
   it checks the triggering conditions and when it builds a CAM. Latitude,
   longitude, curvature and yaw rate are not part of this model.
   */
  datatype Kinematics = Kinematics(
    stationId: nat,
    position: Position,
    speed: MillimetresPerSecond,
    heading: Microdegrees,
    acceleration: MillimetresPerSecondSquared)

  /** Heading threshold: 4 degrees. */
  const HeadingDelta: Microdegrees := 4_000_000

  /** Position threshold: 4 metres. */
  const PositionDelta: Millimetres := 4_000

  /** Speed threshold: 0.5 metres per second. */
  const SpeedDelta: MillimetresPerSecond := 500

  /** Square of the Euclidean distance between two positions. */
  function SquaredDistance(p: Position, q: Position): nat
  {
    (p.x - q.x) * (p.x - q.x) + (p.y - q.y) * (p.y - q.y)
  }

  /** The heading has changed by more than 4 degrees. */
  predicate HeadingChanged(prev: Microdegrees, now: Microdegrees)
  {
    Abs(prev - now) > HeadingDelta
  }

  /**
   The position has moved by more than 4 metres. The distance is compared
   squared, which is exact: both sides of `distance > 4 m` are non-negative.
   */
  predicate PositionChanged(prev: Position, now: Position)
  {
    SquaredDistance(prev, now) > PositionDelta * PositionDelta
  }

  /** The speed has changed by more than 0.5 metres per second. */
  predicate SpeedChanged(prev: MillimetresPerSecond, now: MillimetresPerSecond)
  {
    Abs(prev - now) > SpeedDelta
  }

  /**
   The heading predicate holds exactly when the new heading lies outside the
   closed window of 4 degrees either side of the previous one.
   */
  lemma HeadingChangedOutsideWindow(prev: Microdegrees, now: Microdegrees)
    ensures HeadingChanged(prev, now) <==>
            !(prev - HeadingDelta <= now <= prev + HeadingDelta)
  {
  }

  /** The speed predicate holds exactly outside a closed 0.5 m/s window. */
  lemma SpeedChangedOutsideWindow(prev: MillimetresPerSecond, now: MillimetresPerSecond)
    ensures SpeedChanged(prev, now) <==>
            !(prev - SpeedDelta <= now <= prev + SpeedDelta)
  {
  }

  /**
   No wrap-around: the plain difference is compared, so a full turn, which
   points the same way, still triggers, and so does a 2-degree turn across
   north (from 359 degrees to 1 degree, shifted by any heading `h`).
   */
  lemma HeadingHasNoWrapAround(h: Microdegrees)
    ensures HeadingChanged(h + 360_000_000, h)
    ensures HeadingChanged(h + 359_000_000, h + 1_000_000)
  {
  }

  /** `x * x > t * t` for non-negative `x` and positive `t` means `x > t`. */
  lemma SquareExceeds(x: nat, t: nat)
    requires t > 0
    ensures x * x > t * t <==> x > t
  {
  }

  /**
   Along one axis the squared-distance formulation agrees with the plain
   "moved more than 4 metres" reading of the threshold.
   */
  lemma PositionChangedAlongAxis(prev: Position, d: Millimetres)
    ensures PositionChanged(prev, Position(prev.x + d, prev.y)) <==> Abs(d) > PositionDelta
    ensures PositionChanged(prev, Position(prev.x, prev.y + d)) <==> Abs(d) > PositionDelta
  {
    assert (prev.x - (prev.x + d)) * (prev.x - (prev.x + d)) == Abs(d) * Abs(d);
    assert (prev.y - (prev.y + d)) * (prev.y - (prev.y + d)) == Abs(d) * Abs(d);
    SquareExceeds(Abs(d), PositionDelta);
  }

  /**
   Moving more than 4 metres along either axis triggers, whatever the
   movement along the other axis.
   */
  lemma PositionChangedByComponent(prev: Position, now: Position)
    ensures Abs(now.x - prev.x) > PositionDelta ==> PositionChanged(prev, now)
    ensures Abs(now.y - prev.y) > PositionDelta ==> PositionChanged(prev, now)
  {
  }

  /** All three predicates are symmetric and do not fire on an unchanged reading. */
  lemma PredicatesSymmetricAndIrreflexive(p: Position, q: Position, h: Microdegrees, g: Microdegrees,
                                          v: MillimetresPerSecond, w: MillimetresPerSecond)
    ensures HeadingChanged(h, g) == HeadingChanged(g, h) && !HeadingChanged(h, h)
    ensures PositionChanged(p, q) == PositionChanged(q, p) && !PositionChanged(p, p)
    ensures SpeedChanged(v, w) == SpeedChanged(w, v) && !SpeedChanged(v, v)
  {
  }
}
