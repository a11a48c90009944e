/**
  The source's Vector3 value type. Every operation returns a new vector, so a
  Vector3 is a datatype value here (clone() is the identity on values).
  length() is sqrt(x*x + y*y + z*z) with Math.sqrt on doubles; the model takes
  it as a parameter `length` of which it assumes only IsLength(length): never
  negative, and 0 at the zero vector.
*/
module Vectors {
  import opened RealMath

  datatype Vector3 = Vector3(x: real, y: real, z: real)

  /** Vector3.zero(), also what `new Vector3()` builds. */
  function Zero(): Vector3 { Vector3(0.0, 0.0, 0.0) }

  function Add(a: Vector3, b: Vector3): Vector3 {
    Vector3(a.x + b.x, a.y + b.y, a.z + b.z)
  }

  function Subtract(a: Vector3, b: Vector3): Vector3 {
    Vector3(a.x - b.x, a.y - b.y, a.z - b.z)
  }

  /** multiplyScalar */
  function Scale(a: Vector3, s: real): Vector3 {
    Vector3(a.x * s, a.y * s, a.z * s)
  }

  function Dot(a: Vector3, b: Vector3): real {
    a.x * b.x + a.y * b.y + a.z * b.z
  }

  /**
    What the model relies on about length() = Math.sqrt(x**2 + y**2 + z**2):
    it is never negative and the zero vector has length 0. (Its exact value
    is floating-point behaviour and is not modelled.)
  */
  ghost predicate IsLength(length: Vector3 -> real) {
    (forall v :: 0.0 <= length(v)) && length(Zero()) == 0.0
  }

  /** normalize(): the unit vector along `a`, or the zero vector when `a` has length 0. */
  function Normalize(length: Vector3 -> real, a: Vector3): Vector3 {
    var len := length(a);
    if len > 0.0 then Scale(a, 1.0 / len) else Zero()
  }

  /** lerp(v, t): the point a fraction t of the way from `a` to `b`. */
  function Lerp(a: Vector3, b: Vector3, t: real): Vector3 {
    Vector3(a.x + (b.x - a.x) * t, a.y + (b.y - a.y) * t, a.z + (b.z - a.z) * t)
  }

  /** Every component of c lies between the matching components of a and b. */
  predicate BetweenV(a: Vector3, b: Vector3, c: Vector3) {
    Between(a.x, b.x, c.x) && Between(a.y, b.y, c.y) && Between(a.z, b.z, c.z)
  }

  /** normalize() of a zero-length vector is the zero vector; otherwise it rescales by 1/length. */
  lemma NormalizeProperties(length: Vector3 -> real, a: Vector3)
    requires IsLength(length)
    ensures Normalize(length, Zero()) == Zero()
    ensures length(a) > 0.0 ==> Normalize(length, a) == Scale(a, 1.0 / length(a)) && 1.0 / length(a) > 0.0
    ensures length(a) == 0.0 ==> Normalize(length, a) == Zero()
  {
  }

  /** lerp at t = 0 is the start, at t = 1 the end, and in between it stays on the segment. */
  lemma LerpProperties(a: Vector3, b: Vector3, t: real)
    ensures Lerp(a, b, 0.0) == a && Lerp(a, b, 1.0) == b
    ensures 0.0 <= t <= 1.0 ==> BetweenV(a, b, Lerp(a, b, t))
  {
    if 0.0 <= t <= 1.0 {
      BetweenStep(a.x, b.x, t);
      BetweenStep(a.y, b.y, t);
      BetweenStep(a.z, b.z, t);
    }
  }

  /** The zero vector scales to itself and is neutral for add. */
  lemma ZeroIdentities(a: Vector3, s: real)
    ensures Scale(Zero(), s) == Zero() && Add(a, Zero()) == a
  {
  }

  /** subtract undoes add. */
  lemma SubtractUndoesAdd(a: Vector3, b: Vector3)
    ensures Subtract(Add(a, b), b) == a && Add(Subtract(a, b), b) == a
  {
  }
}
