/** The ball's own collision rule: once a point is under way, any collision
    switches gravity back on, so a flat (gravity-free) hit falls after its
    first contact. While the ball waits for the serve, collisions leave it
    floating. */
module BallManager {
  import opened Ballistics
  import GameManager

  function OnCollisionEnter(ball: Ball, state: GameManager.GameState): (b: Ball)
    ensures b.useGravity <==> ball.useGravity || state != GameManager.PointStart
    ensures state == GameManager.PointStart ==> b == ball
    ensures ball.useGravity ==> b.useGravity
    ensures b.pos == ball.pos && b.vel == ball.vel && b.goingTo == ball.goingTo
  {
    if !ball.useGravity && state != GameManager.PointStart then ball.(useGravity := true) else ball
  }

  /** Repeated delivery of the same collision changes nothing further. */
  lemma OnCollisionEnterIdempotent(ball: Ball, state: GameManager.GameState)
    ensures OnCollisionEnter(OnCollisionEnter(ball, state), state) == OnCollisionEnter(ball, state)
  {
  }

  /** After the point reset the ball keeps floating, whatever it touches,
      until the serve changes the phase. */
  lemma ResetBallFloats(c: GameManager.Court)
    ensures !OnCollisionEnter(GameManager.NextPoint(c).ball, GameManager.NextPoint(c).rally.state).useGravity
  {
  }

}
