/**
 Fixed-point integer stand-ins for the physical quantities the CA service
 works with, and the small integer helpers the rest of the model shares.

 The service computes with double-valued unit-tagged quantities; this model
 fixes one integer unit per dimension instead:
 - time in milliseconds,
 - length (planar coordinates) in millimetres,
 - velocity in millimetres per second,
 - angle in microdegrees,
 - acceleration in millimetres per second squared.
 */
module Units {

  /** Time in milliseconds of simulation time. */
  type Millis = int

  /** Planar coordinate component, in millimetres. */
  type Millimetres = int

  /** Signed velocity, in millimetres per second. */
  type MillimetresPerSecond = int

  /** Angle, in microdegrees. */
  type Microdegrees = int

  /** Signed acceleration, in millimetres per second squared. */
  type MillimetresPerSecondSquared = int

  function Abs(x: int): (r: nat)
    ensures r == x || r == -x
  {
    if x >= 0 then x else -x
  }

  function Min(a: int, b: int): (r: int)
    ensures r <= a && r <= b
    ensures r == a || r == b
  {
    if a <= b then a else b
  }

  function Max(a: int, b: int): (r: int)
    ensures r >= a && r >= b
    ensures r == a || r == b
  {
    if a >= b then a else b
  }

  /**
   Integer division rounding toward zero, which is what a C++ conversion of
   a double quotient to an integer field does. Dafny's own `/` rounds toward
   negative infinity for negative numerators, so the sign is split off.
   */
  function TruncDiv(a: int, d: int): (q: int)
    requires d > 0
    ensures Abs(q) * d <= Abs(a) < (Abs(q) + 1) * d
    ensures a >= 0 ==> q >= 0
    ensures a <= 0 ==> q <= 0
  {
    if a >= 0 then a / d else -((-a) / d)
  }
}
