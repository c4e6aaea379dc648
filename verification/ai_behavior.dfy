/** The AI opponent. It ignores the shared rally state and runs its own cycle
    Waiting, Bumping, Setting, Spiking: it waits for the ball to come to its
    half while standing, chases it until it can bump and then set a
    descending ball, then jumps and spikes it across the net. */
module AIBehavior {
  import opened Wrappers
  import opened Vectors
  import opened Ballistics
  import opened Locomotion

  datatype AIState = Waiting | Bumping | Setting | Spiking

  /** One AI agent: its phase, grounded flag, body, the bump destination it
      remembers for its set, its reach and its movement settings. */
  datatype AI = AI(state: AIState, grounded: bool, body: Body, bumpToLocation: Vec3,
                   interactionRadius: real, tuning: Tuning)

  /** The AI and the ball after one frame. */
  datatype Step = Step(ai: AI, ball: Ball)

  const BumpApex: real := 5.0
  const SetApex: real := 6.0
  const SpikeApex: real := -1.0

  /** An agent begins waiting, airborne, with no bump destination yet. */
  function Start(body: Body, interactionRadius: real, tuning: Tuning): (ai: AI)
    ensures ai.state == Waiting && !ai.grounded && ai.bumpToLocation == Zero
  {
    AI(Waiting, false, body, Zero, interactionRadius, tuning)
  }

  /** The phase after a successful action. */
  function Successor(s: AIState): AIState {
    match s
    case Waiting => Bumping
    case Bumping => Setting
    case Setting => Spiking
    case Spiking => Waiting
  }

  /** The ball is over the agent's half (or on the net line). */
  predicate SameSide(ai: AI, ball: Ball) {
    ball.pos.x * ai.body.pos.x >= 0.0
  }

  predicate IsAINearBall(ai: AI, ball: Ball) {
    Within(ai.body.pos, ball.pos, ai.interactionRadius)
  }

  predicate Descending(ball: Ball) {
    ball.vel.y < 0.0
  }

  /** The product test means the ball and the agent are on the same half of
      the court, a point on the net line counting for both halves. */
  lemma SameSideMeansSameHalf(ai: AI, ball: Ball)
    ensures SameSide(ai, ball) <==>
            (ball.pos.x >= 0.0 && ai.body.pos.x >= 0.0) || (ball.pos.x <= 0.0 && ai.body.pos.x <= 0.0)
  {
    var a, b := ball.pos.x, ai.body.pos.x;
    if a > 0.0 && b > 0.0 {
      MulPositive(a, b);
    } else if a < 0.0 && b < 0.0 {
      MulPositive(-a, -b);
      assert (-a) * (-b) == a * b;
    } else if a > 0.0 && b < 0.0 {
      MulPositive(a, -b);
      assert a * (-b) == -(a * b);
    } else if a < 0.0 && b > 0.0 {
      MulPositive(-a, b);
      assert (-a) * b == -(a * b);
    }
  }

  /** The reach test is the engine's: the distance from the agent to the
      ball is at most the interaction radius. */
  lemma NearMeansWithinRadius(sqrt: real -> real, ai: AI, ball: Ball)
    requires IsSqrt(sqrt)
    ensures IsAINearBall(ai, ball) <==> Magnitude(sqrt, Sub(ai.body.pos, ball.pos)) <= ai.interactionRadius
  {
    WithinIsDistance(sqrt, ai.body.pos, ball.pos, ai.interactionRadius);
  }

  /** Chases the ball in the horizontal plane; the vertical velocity and the
      position are untouched, and an agent already under the ball does not move. */
  function MoveAI(sqrt: real -> real, dt: real, ai: AI, ball: Ball): (b: Body)
    requires IsSqrt(sqrt)
    ensures b.pos == ai.body.pos && b.vel.y == ai.body.vel.y
    ensures ball.pos.x == ai.body.pos.x && ball.pos.z == ai.body.pos.z ==> b == ai.body
    ensures !(ball.pos.x == ai.body.pos.x && ball.pos.z == ai.body.pos.z)
            && 0.0 <= SpeedCap(ai.tuning, ai.grounded) ==>
              NormSq(Horizontal(b.vel)) <= SpeedCap(ai.tuning, ai.grounded) * SpeedCap(ai.tuning, ai.grounded)
  {
    var dir := Vec3(ball.pos.x - ai.body.pos.x, 0.0, ball.pos.z - ai.body.pos.z);
    ai.body.(vel := Steer(sqrt, ai.body.vel, dir, ai.grounded, ai.tuning, dt))
  }

  /** Bump destination: just in front of the net on the ball's half. */
  function BumpTarget(ball: Ball): (t: Vec3)
    ensures t == Vec3(if ball.pos.x < 0.0 then -1.0 else 1.0, 0.0, 0.0)
  {
    var t := Vec3(1.0, 0.0, 0.0);
    if ball.pos.x < 0.0 then Scale(t, -1.0) else t
  }

  /** Spike destination: the middle of the back court across the net. */
  function SpikeTarget(ball: Ball): (t: Vec3)
    ensures t == Vec3(if ball.pos.x > 0.0 then -8.0 else 8.0, 0.0, 0.0)
  {
    var t := Vec3(8.0, 0.0, 0.0);
    if ball.pos.x > 0.0 then Scale(t, -1.0) else t
  }

  /** One frame of the agent's cycle. */
  function CheckState(ph: Physics, dt: real, ai: AI, ball: Ball): (s: Step)
    requires Valid(ph)
    ensures s.ai.state == ai.state || s.ai.state == Successor(ai.state)
    ensures s.ai.interactionRadius == ai.interactionRadius && s.ai.tuning == ai.tuning
    ensures s.ball.pos == ball.pos && s.ball.goingTo == ball.goingTo
    ensures ai.state == Waiting ==>
              s.ball == ball &&
              s.ai == ai.(state := if SameSide(ai, ball) && ai.grounded then Bumping else Waiting)
    ensures (ai.state == Bumping || ai.state == Setting) ==>
              (s.ai.state == Successor(ai.state) <==> IsAINearBall(ai, ball) && Descending(ball))
    ensures (ai.state == Bumping || ai.state == Setting) && !(IsAINearBall(ai, ball) && Descending(ball)) ==>
              s.ball == ball && s.ai == ai.(body := s.ai.body) &&
              s.ai.body.pos == ai.body.pos && s.ai.body.vel.y == ai.body.vel.y
    ensures ai.state == Bumping && IsAINearBall(ai, ball) && Descending(ball) ==>
              s.ai == ai.(state := Setting, bumpToLocation := BumpTarget(ball)) &&
              s.ball == SetBallInitVelocity(ph, ball, BumpTarget(ball), BumpApex, SpikeSpeed)
    ensures ai.state == Setting && IsAINearBall(ai, ball) && Descending(ball) ==>
              s.ai == ai.(state := Spiking) &&
              s.ball == SetBallInitVelocity(ph, ball, ai.bumpToLocation, SetApex, SpikeSpeed)
    ensures ai.state == Spiking && !Descending(ball) ==> s == Step(ai, ball)
    ensures ai.state == Spiking && Descending(ball) && ai.grounded ==>
              s.ball == ball && s.ai == ai.(grounded := false, body := Jump(ai.body, ai.tuning))
    ensures ai.state == Spiking && Descending(ball) && !ai.grounded ==>
              if IsAINearBall(ai, ball) then
                s.ai == ai.(state := Waiting) &&
                s.ball == SetBallInitVelocity(ph, ball, SpikeTarget(ball), SpikeApex, SpikeSpeed)
              else s == Step(ai, ball)
  {
    match ai.state
    case Waiting =>
      if ball.pos.x * ai.body.pos.x >= 0.0 && ai.grounded then Step(ai.(state := Bumping), ball)
      else Step(ai, ball)
    case Bumping =>
      if IsAINearBall(ai, ball) && ball.vel.y < 0.0 then
        var target := BumpTarget(ball);
        Step(ai.(state := Setting, bumpToLocation := target),
             SetBallInitVelocity(ph, ball, target, BumpApex, SpikeSpeed))
      else Step(ai.(body := MoveAI(ph.sqrt, dt, ai, ball)), ball)
    case Setting =>
      if IsAINearBall(ai, ball) && ball.vel.y < 0.0 then
        Step(ai.(state := Spiking), SetBallInitVelocity(ph, ball, ai.bumpToLocation, SetApex, SpikeSpeed))
      else Step(ai.(body := MoveAI(ph.sqrt, dt, ai, ball)), ball)
    case Spiking =>
      if ball.vel.y < 0.0 then
        if ai.grounded then Step(ai.(grounded := false, body := Jump(ai.body, ai.tuning)), ball)
        else if IsAINearBall(ai, ball) then
          Step(ai.(state := Waiting), SetBallInitVelocity(ph, ball, SpikeTarget(ball), SpikeApex, SpikeSpeed))
        else Step(ai, ball)
      else Step(ai, ball)
  }

  /** One frame: nothing happens while the ball is missing. */
  function Update(ph: Physics, dt: real, ai: AI, ball: Option<Ball>): (r: (AI, Option<Ball>))
    requires Valid(ph)
    ensures ball == None ==> r == (ai, None)
    ensures ball.Some? ==>
              var s := CheckState(ph, dt, ai, ball.value);
              r == (s.ai, Some(s.ball))
  {
    match ball
    case None => (ai, None)
    case Some(b) =>
      var s := CheckState(ph, dt, ai, b);
      (s.ai, Some(s.ball))
  }

  function OnCollisionEnter(ai: AI, layer: int): (r: AI)
    ensures r.grounded <==> ai.grounded || layer == GroundLayer
    ensures r == ai.(grounded := r.grounded)
  {
    ai.(grounded := GroundedAfterEnter(ai.grounded, layer))
  }

  function OnCollisionExit(ai: AI, layer: int): (r: AI)
    ensures r.grounded <==> ai.grounded && layer != GroundLayer
    ensures r == ai.(grounded := r.grounded)
  {
    ai.(grounded := GroundedAfterExit(ai.grounded, layer))
  }

  /** Four successful actions bring the agent back to where it started. */
  lemma CycleHasLengthFour(s: AIState)
    ensures Successor(Successor(Successor(Successor(s)))) == s
    ensures Successor(s) != s
  {
  }

  /** The AI's spike at a ball at or above height -1 is flat, ends the cycle,
      and sends the ball toward the other half of the court. */
  lemma SpikeIsFlatAcrossNet(ph: Physics, dt: real, ai: AI, ball: Ball)
    requires Valid(ph)
    requires ai.state == Spiking && Descending(ball) && !ai.grounded && IsAINearBall(ai, ball)
    requires ball.pos.y >= SpikeApex
    ensures var s := CheckState(ph, dt, ai, ball);
            && !s.ball.useGravity && s.ai.state == Waiting
            && (ball.pos.x > 0.0 ==> s.ball.vel.x < 0.0)
            && (ball.pos.x <= 0.0 ==> s.ball.vel.x > 0.0)
  {
    var s := CheckState(ph, dt, ai, ball);
    assert s.ball.vel == FlatVelocity(ph, ball.pos, SpikeTarget(ball), SpikeSpeed);
    FlatTowardFarTarget(ph, ball.pos, SpikeTarget(ball));
  }

  /** A flat hit at a target at least 8 away in x moves the ball toward it in x. */
  lemma FlatTowardFarTarget(ph: Physics, pos: Vec3, end: Vec3)
    requires IsSqrt(ph.sqrt)
    requires end.x - pos.x <= -8.0 || end.x - pos.x >= 8.0
    ensures end.x - pos.x < 0.0 ==> FlatVelocity(ph, pos, end, SpikeSpeed).x < 0.0
    ensures end.x - pos.x > 0.0 ==> FlatVelocity(ph, pos, end, SpikeSpeed).x > 0.0
  {
    var d := Sub(end, pos);
    FarOffsetIsNormalized(ph.sqrt, d);
    var m := Magnitude(ph.sqrt, d);
    var v := FlatVelocity(ph, pos, end, SpikeSpeed);
    assert Scale(v, m) == Scale(d, SpikeSpeed);
    assert Scale(v, m).x == Scale(d, SpikeSpeed).x;
    SignOfScaled(v.x, m, d.x);
  }

  /** A positive factor keeps the sign: `vx * m == dx * 10` with `m > 0`. */
  lemma SignOfScaled(vx: real, m: real, dx: real)
    requires 0.0 < m && vx * m == dx * 10.0
    ensures dx < 0.0 ==> vx < 0.0
    ensures dx > 0.0 ==> vx > 0.0
  {
    if dx < 0.0 && vx >= 0.0 {
      if vx > 0.0 { MulPositive(vx, m); }
      assert false;
    }
    if dx > 0.0 && vx <= 0.0 {
      if vx < 0.0 { MulPositive(-vx, m); }
      assert false;
    }
  }

  /** An offset at least 8 long in x is far longer than the normalisation
      threshold, so it is normalised rather than zeroed. */
  lemma FarOffsetIsNormalized(sqrt: real -> real, d: Vec3)
    requires IsSqrt(sqrt) && (d.x <= -8.0 || d.x >= 8.0)
    ensures Magnitude(sqrt, d) > NormalizeEpsilon
  {
    assert d.x * d.x >= 64.0 by {
      if d.x < 0.0 {
        ProductMonotoneWeak(8.0, -d.x);
      } else {
        ProductMonotoneWeak(8.0, d.x);
      }
    }
    var m := Magnitude(sqrt, d);
    assert NormSq(d) >= d.x * d.x by {
      assert d.y * d.y >= 0.0 && d.z * d.z >= 0.0;
    }
    assert 0.0 <= m && m * m == NormSq(d);
    if m <= NormalizeEpsilon {
      ProductMonotoneWeak(m, NormalizeEpsilon);
      assert false;
    }
  }

  /** What the agent can receive between two looks at its state: a frame
      (with the ball it sees, if any) or the start or end of a contact. */
  datatype Event = Frame(ball: Option<Ball>) | Enter(layer: int) | Exit(layer: int)

  /** The agent after a sequence of events. */
  function Run(ph: Physics, dt: real, ai: AI, events: seq<Event>): AI
    requires Valid(ph)
    decreases |events|
  {
    if |events| == 0 then ai
    else
      var next := match events[0]
        case Frame(b) => Update(ph, dt, ai, b).0
        case Enter(layer) => OnCollisionEnter(ai, layer)
        case Exit(layer) => OnCollisionExit(ai, layer);
      Run(ph, dt, next, events[1..])
  }

  /** A front-court point: where the agent's bump sends the ball. */
  predicate FrontCourt(p: Vec3) {
    p == Vec3(1.0, 0.0, 0.0) || p == Vec3(-1.0, 0.0, 0.0)
  }

  /** The remembered bump destination is unset or a front-court point, and
      it is set whenever the agent is about to set or spike. */
  ghost predicate Aimed(ai: AI) {
    (ai.bumpToLocation == Zero || FrontCourt(ai.bumpToLocation)) &&
    (ai.state == Setting || ai.state == Spiking ==> FrontCourt(ai.bumpToLocation))
  }

  /** However frames and contacts interleave, the agent stays aimed and
      keeps its reach and its movement settings. */
  lemma {:induction false} RunKeepsAimed(ph: Physics, dt: real, ai: AI, events: seq<Event>)
    requires Valid(ph) && Aimed(ai)
    ensures Aimed(Run(ph, dt, ai, events))
    ensures Run(ph, dt, ai, events).interactionRadius == ai.interactionRadius
    ensures Run(ph, dt, ai, events).tuning == ai.tuning
    decreases |events|
  {
    if |events| > 0 {
      var next := match events[0]
        case Frame(b) => Update(ph, dt, ai, b).0
        case Enter(layer) => OnCollisionEnter(ai, layer)
        case Exit(layer) => OnCollisionExit(ai, layer);
      assert Aimed(next) && next.interactionRadius == ai.interactionRadius && next.tuning == ai.tuning;
      RunKeepsAimed(ph, dt, next, events[1..]);
    }
  }

  /** From a fresh agent, every set it makes aims at a front-court point: the
      set never goes toward the unset zero destination. */
  lemma SetsAimAtFrontCourt(ph: Physics, dt: real, body: Body, radius: real, tuning: Tuning,
                            events: seq<Event>)
    requires Valid(ph)
    ensures var ai := Run(ph, dt, Start(body, radius, tuning), events);
            ai.state == Setting ==> FrontCourt(ai.bumpToLocation)
  {
    RunKeepsAimed(ph, dt, Start(body, radius, tuning), events);
  }

}
