/** The human character's movement: each physics step it steers by the move
    input and, when standing on the court with Jump held, jumps. */
module CharacterMovement {
  import opened Vectors
  import opened Locomotion

  datatype Mover = Mover(body: Body, grounded: bool, tuning: Tuning)

  /** A character starts airborne until it first touches the court. */
  function Start(body: Body, tuning: Tuning): (m: Mover)
    ensures !m.grounded && m.body == body
  {
    Mover(body, false, tuning)
  }

  /** One physics step with move input (moveX, moveY) and the Jump button. */
  function FixedUpdate(sqrt: real -> real, dt: real, m: Mover, moveX: real, moveY: real, jumpHeld: bool): (r: Mover)
    requires IsSqrt(sqrt)
    ensures r.grounded == (m.grounded && !jumpHeld)
    ensures r.body.vel.y == m.body.vel.y + (if m.grounded && jumpHeld then m.tuning.jumpForce else 0.0)
    ensures moveX == 0.0 && moveY == 0.0 ==> Horizontal(r.body.vel) == Horizontal(m.body.vel)
    ensures !(moveX == 0.0 && moveY == 0.0) && 0.0 <= SpeedCap(m.tuning, m.grounded) ==>
              NormSq(Horizontal(r.body.vel)) <= SpeedCap(m.tuning, m.grounded) * SpeedCap(m.tuning, m.grounded)
    ensures r.body.pos == m.body.pos && r.tuning == m.tuning
  {
    var steered := m.body.(vel := Steer(sqrt, m.body.vel, Vec3(moveX, 0.0, moveY), m.grounded, m.tuning, dt));
    if m.grounded && jumpHeld then
      m.(body := Jump(steered, m.tuning), grounded := false)
    else
      m.(body := steered)
  }

  function OnCollisionEnter(m: Mover, layer: int): (r: Mover)
    ensures r.grounded <==> m.grounded || layer == GroundLayer
    ensures r.body == m.body && r.tuning == m.tuning
  {
    m.(grounded := GroundedAfterEnter(m.grounded, layer))
  }

  function OnCollisionExit(m: Mover, layer: int): (r: Mover)
    ensures r.grounded <==> m.grounded && layer != GroundLayer
    ensures r.body == m.body && r.tuning == m.tuning
  {
    m.(grounded := GroundedAfterExit(m.grounded, layer))
  }

  /** A character can jump at most once between two landings: right after a
      jump it is airborne, and a further step with Jump held adds nothing. */
  lemma NoDoubleJump(sqrt: real -> real, dt: real, m: Mover, moveX: real, moveY: real,
                     moveX': real, moveY': real)
    requires IsSqrt(sqrt) && m.grounded
    ensures var a := FixedUpdate(sqrt, dt, m, moveX, moveY, true);
            var b := FixedUpdate(sqrt, dt, a, moveX', moveY', true);
            !a.grounded && !b.grounded && b.body.vel.y == a.body.vel.y
  {
  }

}
