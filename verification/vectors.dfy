/** Real-valued stand-ins for Unity's Vector3 and Vector2 and for the state of
    a rigid body. A Vector2 (x, y) of the horizontal plane is carried as the
    Vec3 (x, 0, y). Square roots are not computable over the reals, so the
    engine's square root is a parameter that only has to behave like one. */
module Vectors {

  datatype Vec3 = Vec3(x: real, y: real, z: real)

  /** Position and linear velocity of a rigid body. */
  datatype Body = Body(pos: Vec3, vel: Vec3)

  const Zero: Vec3 := Vec3(0.0, 0.0, 0.0)

  /** Unity's kEpsilon: Normalize returns the zero vector at or below this magnitude. */
  const NormalizeEpsilon: real := 0.00001

  function Add(a: Vec3, b: Vec3): Vec3 {
    Vec3(a.x + b.x, a.y + b.y, a.z + b.z)
  }

  function Sub(a: Vec3, b: Vec3): Vec3 {
    Vec3(a.x - b.x, a.y - b.y, a.z - b.z)
  }

  function Scale(a: Vec3, k: real): Vec3 {
    Vec3(a.x * k, a.y * k, a.z * k)
  }

  function NormSq(a: Vec3): real {
    a.x * a.x + a.y * a.y + a.z * a.z
  }

  /** The horizontal (x, z) part of a vector, as the Vector2 the movement code builds. */
  function Horizontal(a: Vec3): Vec3 {
    Vec3(a.x, 0.0, a.z)
  }

  function DistSq(a: Vec3, b: Vec3): real {
    NormSq(Sub(a, b))
  }

  /** A square root over the non-negative reals. */
  ghost predicate IsSqrt(sqrt: real -> real) {
    forall x: real :: 0.0 <= x ==> 0.0 <= sqrt(x) && sqrt(x) * sqrt(x) == x
  }

  function Magnitude(sqrt: real -> real, a: Vec3): real {
    sqrt(NormSq(a))
  }

  /** `Vector3.Distance(a, b) <= radius`, decided without a square root. */
  predicate Within(a: Vec3, b: Vec3, radius: real) {
    0.0 <= radius && DistSq(a, b) <= radius * radius
  }

  lemma NormSqNonNegative(a: Vec3)
    ensures 0.0 <= NormSq(a)
  {
  }

  /** The square-root-free distance test agrees with comparing the true distance. */
  lemma WithinIsDistance(sqrt: real -> real, a: Vec3, b: Vec3, radius: real)
    requires IsSqrt(sqrt)
    ensures Within(a, b, radius) <==> Magnitude(sqrt, Sub(a, b)) <= radius
  {
    var q := NormSq(Sub(a, b));
    NormSqNonNegative(Sub(a, b));
    var d := sqrt(q);
    assert 0.0 <= d && d * d == q;
    if Within(a, b, radius) {
      if d > radius {
        assert d * d > radius * radius by { ProductMonotone(radius, d); }
        assert false;
      }
    }
    if d <= radius {
      assert d * d <= radius * radius by { ProductMonotoneWeak(d, radius); }
    }
  }

  lemma ProductMonotone(a: real, b: real)
    requires 0.0 <= a < b
    ensures a * a < b * b
  {
    MulPositive(b - a, b + a);
    assert (b - a) * (b + a) == b * b - a * a;
  }

  lemma ProductMonotoneWeak(a: real, b: real)
    requires 0.0 <= a <= b
    ensures a * a <= b * b
  {
    if a < b {
      ProductMonotone(a, b);
    }
  }

  lemma MulPositive(x: real, y: real)
    requires 0.0 < x && 0.0 < y
    ensures 0.0 < x * y
  {
  }

  /** The square root of a positive number is positive. */
  lemma SqrtPositive(sqrt: real -> real, x: real)
    requires IsSqrt(sqrt) && 0.0 < x
    ensures 0.0 < sqrt(x)
  {
    assert sqrt(x) * sqrt(x) == x;
  }

  /** Unity's Normalize: the unit vector in the direction of `a`, or the zero
      vector when `a` is too short to have a reliable direction. */
  function Normalize(sqrt: real -> real, a: Vec3): (u: Vec3)
    requires IsSqrt(sqrt)
    ensures Magnitude(sqrt, a) > NormalizeEpsilon ==>
              NormSq(u) == 1.0 && Scale(u, Magnitude(sqrt, a)) == a
    ensures Magnitude(sqrt, a) <= NormalizeEpsilon ==> u == Zero
  {
    var m := Magnitude(sqrt, a);
    if m > NormalizeEpsilon then
      var u := Scale(a, 1.0 / m);
      UnitAfterDivision(sqrt, a, m);
      u
    else
      Zero
  }

  lemma UnitAfterDivision(sqrt: real -> real, a: Vec3, m: real)
    requires IsSqrt(sqrt) && m == Magnitude(sqrt, a) && m > 0.0
    ensures NormSq(Scale(a, 1.0 / m)) == 1.0
    ensures Scale(Scale(a, 1.0 / m), m) == a
  {
    NormSqNonNegative(a);
    assert m * m == NormSq(a);
    ScaledNormSq(a, 1.0 / m);
    assert (1.0 / m) * (1.0 / m) * (m * m) == 1.0;
  }

  /** Scaling a vector scales its squared length by the square of the factor. */
  lemma ScaledNormSq(a: Vec3, k: real)
    ensures NormSq(Scale(a, k)) == k * k * NormSq(a)
  {
    calc {
      NormSq(Scale(a, k));
      (a.x * k) * (a.x * k) + (a.y * k) * (a.y * k) + (a.z * k) * (a.z * k);
      k * k * (a.x * a.x) + k * k * (a.y * a.y) + k * k * (a.z * a.z);
    }
  }

}
