/** The human hit controller attached to each player. Every frame it decides,
    against the shared rally state, whether its player may touch the ball and
    which single action the current phase allows; a performed action aims the
    ball, records the destination and advances the rally. */
module PlayerBallInteract {
  import opened Wrappers
  import opened Vectors
  import opened Ballistics
  import GM = GameManager

  datatype Action = Bump | Set | Spike | Serve

  /** One player's controller: the player object it belongs to, its court
      side, its reach, and the bump destination it remembers for its next set
      (the zero vector until it has bumped). */
  datatype Controller = Controller(player: GM.Slot, onLeft: bool, interactionRadius: real, bumpToLocation: Vec3)

  /** What the input system reports this frame: the actions performed and the
      y component of the directional axis. */
  datatype Input = Input(bump: bool, setting: bool, spike: bool, serve: bool, dirY: real)

  /** The rally fields, the ball and the controller after a frame. */
  datatype Outcome = Outcome(rally: GM.Rally, ball: Ball, ctrl: Controller)

  /** Apex heights handed to the targeting rule; the spike's is below any
      ball in play, which makes it flat. */
  const BumpApex: real := 5.0
  const SetApex: real := 5.0
  const SpikeApex: real := -1.0
  const ServeApex: real := 6.0

  /** A freshly attached controller has not bumped yet. */
  function Attach(player: GM.Slot, onLeft: bool, interactionRadius: real): (c: Controller)
    ensures c.bumpToLocation == Zero
  {
    Controller(player, onLeft, interactionRadius, Zero)
  }

  /** May this player legally touch the ball now? Never right after its own
      touch; otherwise the attacking side plays every phase except a serve
      or spike, which only the other side may answer. */
  function CanHit(r: GM.Rally, c: Controller): (ok: bool)
    ensures r.lastHit == Some(c.player) ==> !ok
    ensures r.lastHit != Some(c.player) ==>
              (ok <==> ((r.leftAttack == c.onLeft) != (r.state == GM.Served || r.state == GM.Spiked)))
  {
    if r.lastHit == Some(c.player) then false
    else if r.leftAttack != c.onLeft && r.state == GM.Served then true
    else if r.leftAttack == c.onLeft && r.state == GM.PointStart && r.server == c.player then true
    else if r.leftAttack == c.onLeft && r.state == GM.Served then false
    else if r.leftAttack == c.onLeft && r.state != GM.Spiked then true
    else r.leftAttack != c.onLeft && r.state == GM.Spiked
  }

  function IsPlayerNearBall(c: Controller, playerPos: Vec3, ball: Ball): bool {
    Within(playerPos, ball.pos, c.interactionRadius)
  }

  /** The reach test is the engine's: the distance from the player to the
      ball is at most the interaction radius. */
  lemma NearMeansWithinRadius(sqrt: real -> real, c: Controller, playerPos: Vec3, ball: Ball)
    requires IsSqrt(sqrt)
    ensures IsPlayerNearBall(c, playerPos, ball) <==>
            Magnitude(sqrt, Sub(playerPos, ball.pos)) <= c.interactionRadius
  {
    WithinIsDistance(sqrt, playerPos, ball.pos, c.interactionRadius);
  }

  /** The one action each phase calls for: a serve or spike is answered with
      a bump, a bump with a set, a set with a spike, and a point starts with a
      serve. A block calls for nothing. */
  function Expected(s: GM.GameState): Option<Action> {
    match s
    case Served => Some(Bump)
    case Spiked => Some(Bump)
    case Bumped => Some(Set)
    case Set => Some(Spike)
    case PointStart => Some(Serve)
    case Blocked => None
  }

  function Performed(i: Input, a: Action): bool {
    match a
    case Bump => i.bump
    case Set => i.setting
    case Spike => i.spike
    case Serve => i.serve
  }

  /** The phase an action leaves the rally in. */
  function StateAfter(a: Action): GM.GameState {
    match a
    case Bump => GM.Bumped
    case Set => GM.Set
    case Spike => GM.Spiked
    case Serve => GM.Served
  }

  /** Whether the action's positional condition holds: the server's own
      identity for a serve, the reach for every other hit. */
  function InPosition(r: GM.Rally, c: Controller, playerPos: Vec3, ball: Ball, a: Action): bool {
    if a == Serve then r.server == c.player else IsPlayerNearBall(c, playerPos, ball)
  }

  /** The action this frame fires, if any. */
  function Fired(r: GM.Rally, c: Controller, playerPos: Vec3, ball: Ball, i: Input): (a: Option<Action>)
    ensures a.Some? ==> CanHit(r, c) && Expected(r.state) == a && Performed(i, a.value)
                        && InPosition(r, c, playerPos, ball, a.value)
    ensures forall x: Action ::
              (CanHit(r, c) && Expected(r.state) == Some(x) && Performed(i, x)
               && InPosition(r, c, playerPos, ball, x)) ==> a == Some(x)
  {
    if !CanHit(r, c) then None
    else
      match r.state
      case Spiked =>
        if IsPlayerNearBall(c, playerPos, ball) && i.bump then Some(Bump) else None
      case Served =>
        if IsPlayerNearBall(c, playerPos, ball) && i.bump then Some(Bump) else None
      case Bumped =>
        if IsPlayerNearBall(c, playerPos, ball) && i.setting then Some(Set) else None
      case Set =>
        if IsPlayerNearBall(c, playerPos, ball) && i.spike then Some(Spike) else None
      case PointStart =>
        if r.server == c.player && i.serve then Some(Serve) else None
      case Blocked => None
  }

  /** Launches the ball at `target` and records the destination. */
  function Hit(ph: Physics, ball: Ball, target: Vec3, apex: real): (b: Ball)
    requires Valid(ph)
    ensures b.goingTo == target && b.pos == ball.pos
    ensures b.useGravity <==> apex > ball.pos.y
    ensures apex > ball.pos.y ==> b.vel == LoftedVelocity(ph, ball.pos, target, apex)
    ensures apex <= ball.pos.y ==> b.vel == FlatVelocity(ph, ball.pos, target, SpikeSpeed)
  {
    SetBallInitVelocity(ph, ball, target, apex, SpikeSpeed).(goingTo := target)
  }

  /** Bump toward the front of the player's own court. */
  function BumpBall(ph: Physics, r: GM.Rally, c: Controller, ball: Ball): (o: Outcome)
    requires Valid(ph)
    ensures o.ball.goingTo == Vec3(if c.onLeft then -2.0 else 2.0, 0.0, 0.0)
    ensures o.ctrl == c.(bumpToLocation := o.ball.goingTo)
    ensures o.rally == r.(state := GM.Bumped, lastHit := Some(c.player), leftAttack := c.onLeft)
    ensures o.ball == Hit(ph, ball, o.ball.goingTo, BumpApex)
  {
    var target := if c.onLeft then Scale(Vec3(2.0, 0.0, 0.0), -1.0) else Vec3(2.0, 0.0, 0.0);
    Outcome(r.(state := GM.Bumped, lastHit := Some(c.player), leftAttack := c.onLeft),
            Hit(ph, ball, target, BumpApex),
            c.(bumpToLocation := target))
  }

  /** Set toward this controller's last bump destination, biased in depth. */
  function SetBall(ph: Physics, r: GM.Rally, c: Controller, ball: Ball, dirY: real): (o: Outcome)
    requires Valid(ph)
    ensures o.ball.goingTo.x == c.bumpToLocation.x && o.ball.goingTo.y == c.bumpToLocation.y
    ensures o.ball.goingTo.z == c.bumpToLocation.z + DepthShift(dirY)
    ensures o.ctrl == c
    ensures o.rally == r.(state := GM.Set, lastHit := Some(c.player))
    ensures o.ball == Hit(ph, ball, o.ball.goingTo, SetApex)
  {
    var target := Biased(c.bumpToLocation, dirY);
    Outcome(r.(state := GM.Set, lastHit := Some(c.player)), Hit(ph, ball, target, SetApex), c)
  }

  /** The middle of the opponent's back court, biased in depth. */
  function AttackTarget(onLeft: bool, dirY: real): (t: Vec3)
    ensures t.x == (if onLeft then 8.0 else -8.0) && t.y == 0.0 && t.z == DepthShift(dirY)
  {
    var base := if !onLeft then Scale(Vec3(8.0, 0.0, 0.0), -1.0) else Vec3(8.0, 0.0, 0.0);
    Biased(base, dirY)
  }

  /** Spike into the opponent's court; the attacking side is not changed. */
  function SpikeBall(ph: Physics, r: GM.Rally, c: Controller, ball: Ball, dirY: real): (o: Outcome)
    requires Valid(ph)
    ensures o.ball.goingTo == Vec3(if c.onLeft then 8.0 else -8.0, 0.0, DepthShift(dirY))
    ensures o.ctrl == c
    ensures o.rally == r.(state := GM.Spiked, lastHit := Some(c.player))
    ensures o.ball == Hit(ph, ball, o.ball.goingTo, SpikeApex)
  {
    var target := AttackTarget(c.onLeft, dirY);
    Outcome(r.(state := GM.Spiked, lastHit := Some(c.player)), Hit(ph, ball, target, SpikeApex), c)
  }

  /** Serve into the opponent's court; the server's side becomes the attacking side. */
  function ServeBall(ph: Physics, r: GM.Rally, c: Controller, ball: Ball, dirY: real): (o: Outcome)
    requires Valid(ph)
    ensures o.ball.goingTo == Vec3(if c.onLeft then 8.0 else -8.0, 0.0, DepthShift(dirY))
    ensures o.ctrl == c
    ensures o.rally == r.(state := GM.Served, lastHit := Some(c.player), leftAttack := c.onLeft)
    ensures o.ball == Hit(ph, ball, o.ball.goingTo, ServeApex)
  {
    var target := AttackTarget(c.onLeft, dirY);
    Outcome(r.(state := GM.Served, lastHit := Some(c.player), leftAttack := c.onLeft),
            Hit(ph, ball, target, ServeApex), c)
  }

  /** One frame of the controller with the ball present. */
  function CheckState(ph: Physics, r: GM.Rally, c: Controller, playerPos: Vec3, ball: Ball, i: Input): (o: Outcome)
    requires Valid(ph)
    ensures Fired(r, c, playerPos, ball, i) == None ==> o == Outcome(r, ball, c)
    ensures Fired(r, c, playerPos, ball, i).Some? ==>
              var a := Fired(r, c, playerPos, ball, i).value;
              && o.rally.state == StateAfter(a)
              && o.rally.lastHit == Some(c.player)
              && o.rally.server == r.server
              && o.rally.leftAttack == (if a == Bump || a == Serve then c.onLeft else r.leftAttack)
              && (a != Bump ==> o.ctrl == c)
              && o.ball.pos == ball.pos
  {
    match Fired(r, c, playerPos, ball, i)
    case None => Outcome(r, ball, c)
    case Some(Bump) => BumpBall(ph, r, c, ball)
    case Some(Set) => SetBall(ph, r, c, ball, i.dirY)
    case Some(Spike) => SpikeBall(ph, r, c, ball, i.dirY)
    case Some(Serve) => ServeBall(ph, r, c, ball, i.dirY)
  }

  /** One frame: nothing happens while the ball is missing. */
  function Update(ph: Physics, r: GM.Rally, c: Controller, playerPos: Vec3, ball: Option<Ball>, i: Input)
    : (o: (GM.Rally, Option<Ball>, Controller))
    requires Valid(ph)
    ensures ball == None ==> o == (r, None, c)
    ensures ball.Some? ==>
              var x := CheckState(ph, r, c, playerPos, ball.value, i);
              o == (x.rally, Some(x.ball), x.ctrl)
  {
    match ball
    case None => (r, None, c)
    case Some(b) =>
      var x := CheckState(ph, r, c, playerPos, b, i);
      (x.rally, Some(x.ball), x.ctrl)
  }

  /** The phase order a hit can produce: serve or spike, then bump, set, spike. */
  predicate Advances(from: GM.GameState, to: GM.GameState) {
    || (from == GM.PointStart && to == GM.Served)
    || (from == GM.Served && to == GM.Bumped)
    || (from == GM.Spiked && to == GM.Bumped)
    || (from == GM.Bumped && to == GM.Set)
    || (from == GM.Set && to == GM.Spiked)
  }

  /** A frame either changes nothing or moves the rally one step along the
      serve, bump, set, spike order; a blocked ball is never played. */
  lemma PhaseOrder(ph: Physics, r: GM.Rally, c: Controller, playerPos: Vec3, ball: Ball, i: Input)
    requires Valid(ph)
    ensures var o := CheckState(ph, r, c, playerPos, ball, i);
            o.rally == r || Advances(r.state, o.rally.state)
    ensures r.state == GM.Blocked ==> CheckState(ph, r, c, playerPos, ball, i) == Outcome(r, ball, c)
  {
  }

  /** A player that has just hit cannot hit again until someone else touches
      the ball or the point is reset, whatever it presses and wherever the ball is. */
  lemma NoDoubleTouch(ph: Physics, r: GM.Rally, c: Controller, playerPos: Vec3, ball: Ball, i: Input,
                      playerPos': Vec3, ball': Ball, i': Input)
    requires Valid(ph)
    requires Fired(r, c, playerPos, ball, i).Some?
    ensures var o := CheckState(ph, r, c, playerPos, ball, i);
            CheckState(ph, o.rally, o.ctrl, playerPos', ball', i') == Outcome(o.rally, ball', o.ctrl)
  {
  }

  /** A spike never lofts a ball at or above height -1: it is flat, with
      gravity off; a bump or set below height 5 and a serve below height 6 are
      lofted, with gravity on and the ball rising. */
  lemma HitModes(ph: Physics, r: GM.Rally, c: Controller, ball: Ball, dirY: real)
    requires Valid(ph)
    ensures ball.pos.y >= -1.0 ==> !SpikeBall(ph, r, c, ball, dirY).ball.useGravity
    ensures ball.pos.y < 5.0 ==> BumpBall(ph, r, c, ball).ball.useGravity && BumpBall(ph, r, c, ball).ball.vel.y > 0.0
    ensures ball.pos.y < 5.0 ==> SetBall(ph, r, c, ball, dirY).ball.useGravity
    ensures ball.pos.y < 6.0 ==> ServeBall(ph, r, c, ball, dirY).ball.useGravity && ServeBall(ph, r, c, ball, dirY).ball.vel.y > 0.0
  {
  }

  /** After the point reset only the server, playing on the attacking side,
      can act, and only by serving; the serve is lofted across the net. */
  lemma ResetOnlyServes(ph: Physics, court: GM.Court, c: Controller, playerPos: Vec3, i: Input)
    requires Valid(ph)
    ensures var n := GM.NextPoint(court);
            var a := Fired(n.rally, c, playerPos, n.ball, i);
            a.Some? ==> a.value == Serve && c.player == n.rally.server && c.onLeft == n.rally.leftAttack
    ensures var n := GM.NextPoint(court);
            c.player == n.rally.server && c.onLeft == n.rally.leftAttack && i.serve ==>
              var o := CheckState(ph, n.rally, c, playerPos, n.ball, i);
              && o.rally.state == GM.Served
              && o.ball.useGravity && o.ball.vel.y > 0.0
              && (o.ball.goingTo.x > 0.0 <==> c.onLeft)
  {
    var n := GM.NextPoint(court);
    assert n.ball.pos.y == 1.0;
  }

  /** A frame in which the controller of one player slot runs. */
  datatype Touch = Touch(slot: GM.Slot, playerPos: Vec3, input: Input)

  /** The rally fields, the ball and every player's controller. */
  datatype Table = Table(rally: GM.Rally, ball: Ball, ctrls: GM.Squad<Controller>)

  /** The state after a sequence of frames, each run by one player's controller. */
  function Play(ph: Physics, t: Table, touches: seq<Touch>): Table
    requires Valid(ph)
    decreases |touches|
  {
    if |touches| == 0 then t
    else
      var x := touches[0];
      var o := CheckState(ph, t.rally, t.ctrls.At(x.slot), x.playerPos, t.ball, x.input);
      Play(ph, Table(o.rally, o.ball, t.ctrls.With(x.slot, o.ctrl)), touches[1..])
  }

  /** The rally invariant: the last hitter is cleared exactly while a point
      waits for its serve, and no hit ever blocks. */
  ghost predicate Consistent(r: GM.Rally) {
    (r.state == GM.PointStart <==> r.lastHit == None) && r.state != GM.Blocked
  }

  /** The point reset establishes the invariant. */
  lemma ResetIsConsistent(c: GM.Court)
    ensures Consistent(GM.NextPoint(c).rally)
  {
  }

  /** However the players act, hits keep the invariant, never change the
      server or the ball's position, and every player remembers the last
      thing it did. */
  lemma {:induction false} PlayKeepsConsistent(ph: Physics, t: Table, touches: seq<Touch>)
    requires Valid(ph) && Consistent(t.rally)
    ensures Consistent(Play(ph, t, touches).rally)
    ensures Play(ph, t, touches).rally.server == t.rally.server
    ensures Play(ph, t, touches).ball.pos == t.ball.pos
    ensures forall s: GM.Slot :: Play(ph, t, touches).ctrls.At(s).player == t.ctrls.At(s).player
    decreases |touches|
  {
    if |touches| > 0 {
      var x := touches[0];
      var o := CheckState(ph, t.rally, t.ctrls.At(x.slot), x.playerPos, t.ball, x.input);
      var t' := Table(o.rally, o.ball, t.ctrls.With(x.slot, o.ctrl));
      assert o.ctrl.player == t.ctrls.At(x.slot).player by {
        if Fired(t.rally, t.ctrls.At(x.slot), x.playerPos, t.ball, x.input) == Some(Bump) {
          assert o == BumpBall(ph, t.rally, t.ctrls.At(x.slot), t.ball);
        }
      }
      assert forall s: GM.Slot :: t'.ctrls.At(s).player == t.ctrls.At(s).player;
      PlayKeepsConsistent(ph, t', touches[1..]);
    }
  }

  /** As written, a set aims at the setter's own remembered bump destination.
      The setter is never the bumper, since no player touches the ball twice
      in a row, so a teammate that has never bumped sets toward the centre of
      the net line, whatever the bump aimed at. */
  lemma FreshSetterAimsAtNet(ph: Physics, r: GM.Rally, bumper: Controller, setter: Controller,
                             bumperPos: Vec3, setterPos: Vec3, ball: Ball, bumpIn: Input, setIn: Input)
    requires Valid(ph)
    requires bumper.player != setter.player && bumper.onLeft == setter.onLeft
    requires setter.bumpToLocation == Zero
    requires Fired(r, bumper, bumperPos, ball, bumpIn) == Some(Bump)
    requires setIn.setting && -0.64 <= setIn.dirY <= 0.64
    requires IsPlayerNearBall(setter, setterPos, ball)
    ensures var b := CheckState(ph, r, bumper, bumperPos, ball, bumpIn);
            var s := CheckState(ph, b.rally, setter, setterPos, b.ball, setIn);
            && b.ball.goingTo == Vec3(if bumper.onLeft then -2.0 else 2.0, 0.0, 0.0)
            && s.rally.state == GM.Set
            && s.ball.goingTo == Zero
  {
    var b := CheckState(ph, r, bumper, bumperPos, ball, bumpIn);
    assert b == BumpBall(ph, r, bumper, ball);
    assert b.rally.state == GM.Bumped && b.rally.lastHit == Some(bumper.player);
    assert b.rally.leftAttack == setter.onLeft;
    assert CanHit(b.rally, setter);
    assert b.ball.pos == ball.pos;
    assert IsPlayerNearBall(setter, setterPos, b.ball);
    assert Fired(b.rally, setter, setterPos, b.ball, setIn) == Some(Set);
    var s := CheckState(ph, b.rally, setter, setterPos, b.ball, setIn);
    assert s == SetBall(ph, b.rally, setter, b.ball, setIn.dirY);
    assert DepthShift(setIn.dirY) == 0.0;
  }

  /** The set as evidently intended: toward the destination the bump gave
      the ball, biased in depth, whoever sets. */
  function SetBallIntended(ph: Physics, r: GM.Rally, c: Controller, ball: Ball, dirY: real): (o: Outcome)
    requires Valid(ph)
    ensures o.ball.goingTo.x == ball.goingTo.x && o.ball.goingTo.y == ball.goingTo.y
    ensures o.ball.goingTo.z == ball.goingTo.z + DepthShift(dirY)
    ensures o.ctrl == c
    ensures o.rally == r.(state := GM.Set, lastHit := Some(c.player))
    ensures o.ball == Hit(ph, ball, o.ball.goingTo, SetApex)
  {
    var target := Biased(ball.goingTo, dirY);
    Outcome(r.(state := GM.Set, lastHit := Some(c.player)), Hit(ph, ball, target, SetApex), c)
  }

  /** With the intended set, a bump followed by a teammate's set always sends
      the ball to the bumper's front court, biased in depth, whatever the
      setter remembers. */
  lemma IntendedSetFollowsBump(ph: Physics, r: GM.Rally, bumper: Controller, setter: Controller,
                               ball: Ball, dirY: real)
    requires Valid(ph)
    ensures var b := BumpBall(ph, r, bumper, ball);
            var s := SetBallIntended(ph, b.rally, setter, b.ball, dirY);
            && s.ball.goingTo == Vec3(if bumper.onLeft then -2.0 else 2.0, 0.0, DepthShift(dirY))
            && s.ball.goingTo.x * b.ball.goingTo.x > 0.0
  {
  }

}
