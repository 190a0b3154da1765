/** Three-component vectors as used by the movement pipeline.

    Components are mathematical reals: f32 rounding is not modelled. A
    vector that may have become non-finite (the result of normalizing the
    zero vector) is a `Direction`, which is either a finite vector or
    `NotANumber`. */
module Vectors {

  datatype Vec3 = Vec3(x: real, y: real, z: real)

  /** A direction as carried by a movement event: a finite vector, or the
      NaN vector that normalizing the zero vector yields. */
  datatype Direction = Finite(vec: Vec3) | NotANumber

  function Zero(): Vec3 { Vec3(0.0, 0.0, 0.0) }

  function Add(a: Vec3, b: Vec3): Vec3
  {
    Vec3(a.x + b.x, a.y + b.y, a.z + b.z)
  }

  /** The additive inverse: adding it cancels to the zero vector. */
  function Neg(a: Vec3): (r: Vec3)
    ensures Add(a, r) == Zero() && Add(r, a) == Zero()
  {
    Vec3(-a.x, -a.y, -a.z)
  }

  function Dot(a: Vec3, b: Vec3): real
  {
    a.x * b.x + a.y * b.y + a.z * b.z
  }

  function Cross(a: Vec3, b: Vec3): Vec3
  {
    Vec3(a.y * b.z - a.z * b.y, a.z * b.x - a.x * b.z, a.x * b.y - a.y * b.x)
  }

  function LengthSquared(a: Vec3): real
  {
    a.x * a.x + a.y * a.y + a.z * a.z
  }

  /** A sum of three squares is positive as soon as one term is non-zero. */
  lemma SumOfSquaresPositive(x: real, y: real, z: real)
    requires x != 0.0 || y != 0.0 || z != 0.0
    ensures x * x + y * y + z * z > 0.0
  {
  }

  /** The only vector whose squared length is not positive is the zero
      vector, so the `length_squared() > 0.0` guard is a zero test. */
  lemma PositiveLengthIffNonZero(a: Vec3)
    ensures LengthSquared(a) > 0.0 <==> a != Zero()
  {
    if a == Zero() {
      calc {
        LengthSquared(a);
        == 0.0 * 0.0 + 0.0 * 0.0 + 0.0 * 0.0;
        == 0.0;
      }
    } else {
      calc {
        LengthSquared(a);
        == a.x * a.x + a.y * a.y + a.z * a.z;
        > { SumOfSquaresPositive(a.x, a.y, a.z); }
        0.0;
      }
    }
  }

  /** `length_squared() > 0.0` on a possibly non-finite vector: every
      comparison with NaN is false. */
  predicate HasPositiveLength(d: Direction)
  {
    d.Finite? && LengthSquared(d.vec) > 0.0
  }

  /** What the pipeline relies on about `normalize`: the zero vector gives
      NaN; any other vector gives a finite vector of unit length that points
      the same way (parallel, and with positive dot product). */
  ghost predicate IsNormalize(normalize: Vec3 -> Direction)
  {
    && normalize(Zero()) == NotANumber
    && forall v :: v != Zero() ==>
         && normalize(v).Finite?
         && LengthSquared(normalize(v).vec) == 1.0
         && Cross(normalize(v).vec, v) == Zero()
         && Dot(normalize(v).vec, v) > 0.0
  }

  /** A normalized vector passes the length guard exactly when the input
      was non-zero. */
  lemma NormalizeGuard(normalize: Vec3 -> Direction, v: Vec3)
    requires IsNormalize(normalize)
    ensures HasPositiveLength(normalize(v)) <==> v != Zero()
  {
  }

  /** Normalizing a non-zero vector that lies in the horizontal plane
      gives a direction in the horizontal plane. */
  lemma NormalizeKeepsHorizontal(normalize: Vec3 -> Direction, v: Vec3)
    requires IsNormalize(normalize)
    requires v != Zero() && v.y == 0.0
    ensures normalize(v).Finite? && normalize(v).vec.y == 0.0
  {
  }
}
