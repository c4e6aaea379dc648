/** The earlier, self-contained bump/set controller. It keeps no rally state:
    a held Bump (or the Bump action's performed event) bumps the ball toward a
    fixed point, a held Set sets it with a depth bias, both only within reach,
    and only upward hits change the ball at all. */
module LegacyBallInteract {
  import opened Wrappers
  import opened Vectors
  import opened Ballistics

  datatype Controller = Controller(interactionRadius: real)

  /** Buttons held this frame and the directional axis's y component. */
  datatype Held = Held(bump: bool, setting: bool, dirY: real)

  /** The bump destination fixed at Start, whatever the player's side. */
  const BumpToLocation: Vec3 := Vec3(1.0, 0.0, 0.0)

  const BumpApex: real := 5.0
  const SetApex: real := 6.0

  /** Within reach; never when there is no ball. */
  function IsPlayerNearBall(c: Controller, playerPos: Vec3, ball: Option<Ball>): (near: bool)
    ensures near <==> ball.Some? && Within(playerPos, ball.value.pos, c.interactionRadius)
  {
    match ball
    case None => false
    case Some(b) => Within(playerPos, b.pos, c.interactionRadius)
  }

  /** This controller's targeting: a lofted launch when the apex is above the
      ball and no change at all otherwise; the gravity flag is never touched. */
  function SetBallInitVelocity(ph: Physics, ball: Ball, end: Vec3, maxHeight: real): (b: Ball)
    requires Valid(ph)
    ensures b.useGravity == ball.useGravity && b.pos == ball.pos && b.goingTo == ball.goingTo
    ensures maxHeight > ball.pos.y ==> b.vel == LoftedVelocity(ph, ball.pos, end, maxHeight)
    ensures maxHeight <= ball.pos.y ==> b == ball
  {
    if maxHeight > ball.pos.y then ball.(vel := LoftedVelocity(ph, ball.pos, end, maxHeight)) else ball
  }

  /** The bump, by the performed event or by the held button. */
  function OnInteract(ph: Physics, c: Controller, playerPos: Vec3, ball: Option<Ball>): (r: Option<Ball>)
    requires Valid(ph)
    ensures !IsPlayerNearBall(c, playerPos, ball) ==> r == ball
    ensures IsPlayerNearBall(c, playerPos, ball) ==>
              r == Some(SetBallInitVelocity(ph, ball.value, BumpToLocation, BumpApex))
  {
    if IsPlayerNearBall(c, playerPos, ball) then
      Some(SetBallInitVelocity(ph, ball.value, BumpToLocation, BumpApex))
    else ball
  }

  /** The set destination: the bump destination moved 4 units in depth by a
      strong enough directional input. */
  function SetTarget(dirY: real): (t: Vec3)
    ensures t == Vec3(1.0, 0.0, DepthShift(dirY))
  {
    Biased(BumpToLocation, dirY)
  }

  /** The set, toward the set destination. */
  function SetBall(ph: Physics, c: Controller, playerPos: Vec3, ball: Option<Ball>, dirY: real): (r: Option<Ball>)
    requires Valid(ph)
    ensures !IsPlayerNearBall(c, playerPos, ball) ==> r == ball
    ensures IsPlayerNearBall(c, playerPos, ball) ==>
              r == Some(SetBallInitVelocity(ph, ball.value, SetTarget(dirY), SetApex))
  {
    if IsPlayerNearBall(c, playerPos, ball) then
      Some(SetBallInitVelocity(ph, ball.value, SetTarget(dirY), SetApex))
    else ball
  }

  /** One frame: a held Bump wins over a held Set. */
  function Update(ph: Physics, c: Controller, playerPos: Vec3, ball: Option<Ball>, held: Held): (r: Option<Ball>)
    requires Valid(ph)
    ensures held.bump ==> r == OnInteract(ph, c, playerPos, ball)
    ensures !held.bump && held.setting ==> r == SetBall(ph, c, playerPos, ball, held.dirY)
    ensures !held.bump && !held.setting ==> r == ball
  {
    if held.bump then OnInteract(ph, c, playerPos, ball)
    else if held.setting then SetBall(ph, c, playerPos, ball, held.dirY)
    else ball
  }

  /** Whatever the frame does, it never moves the ball, switches its gravity
      or changes its recorded destination, and it leaves a ball out of reach
      or above the apex of the chosen hit exactly as it was. */
  lemma FrameOnlyChangesVelocity(ph: Physics, c: Controller, playerPos: Vec3, ball: Ball, held: Held)
    requires Valid(ph)
    ensures var r := Update(ph, c, playerPos, Some(ball), held);
            r.Some? && r.value == ball.(vel := r.value.vel)
    ensures !Within(playerPos, ball.pos, c.interactionRadius) ==> Update(ph, c, playerPos, Some(ball), held) == Some(ball)
    ensures held.bump && ball.pos.y >= BumpApex ==> Update(ph, c, playerPos, Some(ball), held) == Some(ball)
  {
  }

  /** A lofted bump lands on the fixed bump point within the estimated
      airtime, from either side of the court. */
  lemma BumpAimsAtFixedPoint(ph: Physics, c: Controller, playerPos: Vec3, ball: Ball, held: Held)
    requires Valid(ph) && held.bump && Within(playerPos, ball.pos, c.interactionRadius) && ball.pos.y < BumpApex
    ensures var r := Update(ph, c, playerPos, Some(ball), held).value;
            var t := AirTime(ph, ball.pos.y, BumpApex);
            ball.pos.x + r.vel.x * t == 1.0 && ball.pos.z + r.vel.z * t == 0.0 && r.vel.y > 0.0
  {
    var r := OnInteract(ph, c, playerPos, Some(ball)).value;
    assert r.vel == LoftedVelocity(ph, ball.pos, BumpToLocation, BumpApex);
  }

}
