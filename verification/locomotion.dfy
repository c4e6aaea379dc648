/** Movement rules shared, with the same logic, by the AI controller and the
    human character controller: steering the horizontal velocity under a
    speed cap, jumping, and the grounded flag kept by collisions with the
    court's layer. */
module Locomotion {
  import opened Vectors

  /** The physics layer of the court surface. */
  const GroundLayer: int := 6

  /** How quickly a character can change direction. */
  const DirectionChangeWeight: real := 15.0

  /** Public movement settings of a character. */
  datatype Tuning = Tuning(maxGroundSpeed: real, maxAirSpeed: real, jumpForce: real)

  /** The horizontal speed limit that applies on the ground or in the air. */
  function SpeedCap(t: Tuning, grounded: bool): real {
    if grounded then t.maxGroundSpeed else t.maxAirSpeed
  }

  /** Pushes the horizontal velocity toward `dir` (its x and z only), scaled
      by the fixed time step, and clamps the horizontal speed to the cap. The
      vertical velocity is kept; a zero direction changes nothing. */
  function Steer(sqrt: real -> real, vel: Vec3, dir: Vec3, grounded: bool, t: Tuning, dt: real): (v: Vec3)
    requires IsSqrt(sqrt)
    ensures v.y == vel.y
    ensures dir.x == 0.0 && dir.z == 0.0 ==> v == vel
    ensures !(dir.x == 0.0 && dir.z == 0.0) && 0.0 <= SpeedCap(t, grounded) ==>
              NormSq(Horizontal(v)) <= SpeedCap(t, grounded) * SpeedCap(t, grounded)
  {
    if dir.x == 0.0 && dir.z == 0.0 then vel
    else
      var h := Vec3(vel.x + dir.x * dt * DirectionChangeWeight, 0.0, vel.z + dir.z * dt * DirectionChangeWeight);
      var h' :=
        if grounded && Magnitude(sqrt, h) > t.maxGroundSpeed then Scale(Normalize(sqrt, h), t.maxGroundSpeed)
        else if !grounded && Magnitude(sqrt, h) > t.maxAirSpeed then Scale(Normalize(sqrt, h), t.maxAirSpeed)
        else h;
      ClampBound(sqrt, h, SpeedCap(t, grounded));
      Vec3(h'.x, vel.y, h'.z)
  }

  /** Both outcomes of the clamp respect a non-negative cap. */
  lemma ClampBound(sqrt: real -> real, h: Vec3, cap: real)
    requires IsSqrt(sqrt) && h.y == 0.0
    ensures Magnitude(sqrt, h) > cap ==>
              Scale(Normalize(sqrt, h), cap).y == 0.0 &&
              (0.0 <= cap ==> NormSq(Scale(Normalize(sqrt, h), cap)) <= cap * cap)
    ensures Magnitude(sqrt, h) <= cap ==> NormSq(h) <= cap * cap
  {
    var m := Magnitude(sqrt, h);
    NormSqNonNegative(h);
    assert 0.0 <= m && m * m == NormSq(h);
    if m > cap {
      var u := Normalize(sqrt, h);
      ScaledNormSq(u, cap);
      if m > NormalizeEpsilon {
        assert u.y * m == 0.0;
      }
    } else {
      ProductMonotoneWeak(m, cap);
    }
  }

  /** The jump impulse: adds the jump force to the vertical velocity. */
  function Jump(body: Body, t: Tuning): (b: Body)
    ensures b.pos == body.pos && Horizontal(b.vel) == Horizontal(body.vel)
    ensures b.vel.y - body.vel.y == t.jumpForce
  {
    body.(vel := Add(body.vel, Vec3(0.0, t.jumpForce, 0.0)))
  }

  /** Landing on the court sets the grounded flag; other contacts keep it. */
  function GroundedAfterEnter(grounded: bool, layer: int): (g: bool)
    ensures layer == GroundLayer ==> g
    ensures layer != GroundLayer ==> g == grounded
  {
    if layer == GroundLayer then true else grounded
  }

  /** Leaving the court clears the grounded flag; other contacts keep it. */
  function GroundedAfterExit(grounded: bool, layer: int): (g: bool)
    ensures layer == GroundLayer ==> !g
    ensures layer != GroundLayer ==> g == grounded
  {
    if layer == GroundLayer then false else grounded
  }

  /** Contact events are edge triggers: delivering one twice is the same as
      delivering it once, and the last court event decides the flag. */
  lemma ContactEventsIdempotent(grounded: bool, layer: int)
    ensures GroundedAfterEnter(GroundedAfterEnter(grounded, layer), layer) == GroundedAfterEnter(grounded, layer)
    ensures GroundedAfterExit(GroundedAfterExit(grounded, layer), layer) == GroundedAfterExit(grounded, layer)
    ensures GroundedAfterExit(GroundedAfterEnter(grounded, GroundLayer), GroundLayer) == false
    ensures GroundedAfterEnter(GroundedAfterExit(grounded, GroundLayer), GroundLayer) == true
  {
  }

}
