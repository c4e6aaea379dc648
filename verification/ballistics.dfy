/** The ballistic targeting rule shared by the human hit controller and the AI
    controller (their `SetBallInitVelocity` methods are identical): a hit whose
    apex height lies above the ball is lofted under gravity, any other hit is
    a flat, gravity-free shot at the spike speed. */
module Ballistics {
  import opened Vectors

  /** The ball object: its rigid body (position, velocity, gravity flag) and
      the destination its BallManager records in `goingTo`. */
  datatype Ball = Ball(pos: Vec3, vel: Vec3, useGravity: bool, goingTo: Vec3)

  /** The simulator's constants: the magnitude of `Physics.gravity.y` and the
      square root the engine computes with. */
  datatype Physics = Physics(gravity: real, sqrt: real -> real)

  ghost predicate Valid(ph: Physics) {
    0.0 < ph.gravity && IsSqrt(ph.sqrt)
  }

  /** Speed of a flat hit: both controllers set `spikeSpeed` to 10 in Start. */
  const SpikeSpeed: real := 10.0

  /** Height a lofted ball is taken to fall from when its airtime is estimated. */
  const ReferenceFallHeight: real := 5.0

  /** Magnitude of the directional input's y component beyond which a hit is
      aimed 4 units deeper or shallower along z. */
  const DirectionThreshold: real := 0.64

  const DepthStep: real := 4.0

  datatype Mode = Lofted | Flat

  function ModeFor(maxHeight: real, ballY: real): Mode {
    if maxHeight > ballY then Lofted else Flat
  }

  /** The three-way depth bias of a directional input along z. */
  function DepthShift(dirY: real): (dz: real)
    ensures dz == -DepthStep <==> dirY < -DirectionThreshold
    ensures dz == DepthStep <==> dirY > DirectionThreshold
    ensures dz == 0.0 <==> -DirectionThreshold <= dirY <= DirectionThreshold
  {
    if dirY < -DirectionThreshold then -DepthStep
    else if dirY > DirectionThreshold then DepthStep
    else 0.0
  }

  /** A target moved along z by the directional bias; x and y are kept. */
  function Biased(target: Vec3, dirY: real): Vec3 {
    Vec3(target.x, target.y, target.z + DepthShift(dirY))
  }

  /** Launch speed upwards that makes the ball peak exactly at `maxHeight`. */
  function RiseSpeed(ph: Physics, ballY: real, maxHeight: real): (v: real)
    requires Valid(ph) && maxHeight > ballY
    ensures 0.0 < v
    ensures ballY + v * v / (2.0 * ph.gravity) == maxHeight
  {
    SqrtPositive(ph.sqrt, 2.0 * ph.gravity * (maxHeight - ballY));
    ph.sqrt(2.0 * ph.gravity * (maxHeight - ballY))
  }

  /** Speed reached by a ball falling from the reference height. */
  function FallSpeed(ph: Physics): (v: real)
    requires Valid(ph)
    ensures 0.0 < v
    ensures v * v / (2.0 * ph.gravity) == ReferenceFallHeight
  {
    SqrtPositive(ph.sqrt, 10.0 * ph.gravity);
    ph.sqrt(10.0 * ph.gravity)
  }

  /** Estimated airtime of a lofted hit: the time to rise to the apex plus the
      time to fall from the reference height. It depends on heights only,
      never on how far the target is. */
  function AirTime(ph: Physics, ballY: real, maxHeight: real): (t: real)
    requires Valid(ph) && maxHeight > ballY
    ensures 0.0 < t
  {
    RiseSpeed(ph, ballY, maxHeight) / ph.gravity + FallSpeed(ph) / ph.gravity
  }

  /** Lofted launch: the arc peaks at `maxHeight` and covers the horizontal
      offset to the target in exactly the estimated airtime. */
  function LoftedVelocity(ph: Physics, pos: Vec3, end: Vec3, maxHeight: real): (v: Vec3)
    requires Valid(ph) && maxHeight > pos.y
    ensures 0.0 < v.y
    ensures pos.y + v.y * v.y / (2.0 * ph.gravity) == maxHeight
    ensures v.x * AirTime(ph, pos.y, maxHeight) == end.x - pos.x
    ensures v.z * AirTime(ph, pos.y, maxHeight) == end.z - pos.z
  {
    var t := AirTime(ph, pos.y, maxHeight);
    Vec3((end.x - pos.x) / t, RiseSpeed(ph, pos.y, maxHeight), (end.z - pos.z) / t)
  }

  /** Flat launch: straight at the target at `speed`, or no motion at all when
      the target is too close to give a direction. */
  function FlatVelocity(ph: Physics, pos: Vec3, end: Vec3, speed: real): (v: Vec3)
    requires IsSqrt(ph.sqrt)
    ensures Magnitude(ph.sqrt, Sub(end, pos)) > NormalizeEpsilon ==>
              NormSq(v) == speed * speed &&
              Scale(v, Magnitude(ph.sqrt, Sub(end, pos))) == Scale(Sub(end, pos), speed)
    ensures Magnitude(ph.sqrt, Sub(end, pos)) <= NormalizeEpsilon ==> v == Zero
  {
    var d := Sub(end, pos);
    var u := Normalize(ph.sqrt, d);
    ScaledNormSq(u, speed);
    var v := Scale(u, speed);
    assert Scale(v, Magnitude(ph.sqrt, d)) == Scale(Scale(u, Magnitude(ph.sqrt, d)), speed);
    v
  }

  /** The hit: picks the mode from the apex height, sets the gravity flag to
      match, and replaces the ball's velocity. Position and `goingTo` are left
      to the caller. */
  function SetBallInitVelocity(ph: Physics, ball: Ball, end: Vec3, maxHeight: real, speed: real): (b: Ball)
    requires Valid(ph)
    ensures b.pos == ball.pos && b.goingTo == ball.goingTo
    ensures b.useGravity <==> maxHeight > ball.pos.y
    ensures maxHeight > ball.pos.y ==> b.vel == LoftedVelocity(ph, ball.pos, end, maxHeight)
    ensures maxHeight <= ball.pos.y ==> b.vel == FlatVelocity(ph, ball.pos, end, speed)
  {
    match ModeFor(maxHeight, ball.pos.y)
    case Lofted => ball.(useGravity := true, vel := LoftedVelocity(ph, ball.pos, end, maxHeight))
    case Flat => ball.(useGravity := false, vel := FlatVelocity(ph, ball.pos, end, speed))
  }

  /** A hit below the ball (the spike's apex of -1 under a ball at or above
      -1) is always flat, and flat hits switch gravity off. */
  lemma NonPositiveApexIsFlat(ph: Physics, ball: Ball, end: Vec3, maxHeight: real, speed: real)
    requires Valid(ph) && maxHeight <= ball.pos.y
    ensures !SetBallInitVelocity(ph, ball, end, maxHeight, speed).useGravity
    ensures ModeFor(maxHeight, ball.pos.y) == Flat
  {
  }

  /** A lofted hit always sends the ball upwards with gravity on. */
  lemma LoftedGoesUp(ph: Physics, ball: Ball, end: Vec3, maxHeight: real, speed: real)
    requires Valid(ph) && maxHeight > ball.pos.y
    ensures SetBallInitVelocity(ph, ball, end, maxHeight, speed).useGravity
    ensures SetBallInitVelocity(ph, ball, end, maxHeight, speed).vel.y > 0.0
  {
  }

}
