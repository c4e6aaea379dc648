/** The shared rally state: the phase of the point, the last player to touch
    the ball, who serves and which side attacks, together with the bodies the
    point reset puts back in place. */
module GameManager {
  import opened Wrappers
  import opened Vectors
  import opened Ballistics
  import ScoreManager

  datatype GameState = PointStart | Served | Bumped | Set | Spiked | Blocked

  /** The four player objects the manager is wired to. */
  datatype Slot = LeftPlayer1 | LeftPlayer2 | RightPlayer1 | RightPlayer2

  predicate OnLeftTeam(s: Slot) {
    s == LeftPlayer1 || s == LeftPlayer2
  }

  /** One value per player slot. */
  datatype Squad<T> = Squad(lp1: T, lp2: T, rp1: T, rp2: T) {
    function At(s: Slot): T {
      match s
      case LeftPlayer1 => lp1
      case LeftPlayer2 => lp2
      case RightPlayer1 => rp1
      case RightPlayer2 => rp2
    }

    function With(s: Slot, v: T): (q: Squad<T>)
      ensures q.At(s) == v
      ensures forall o: Slot :: o != s ==> q.At(o) == At(o)
    {
      match s
      case LeftPlayer1 => this.(lp1 := v)
      case LeftPlayer2 => this.(lp2 := v)
      case RightPlayer1 => this.(rp1 := v)
      case RightPlayer2 => this.(rp2 := v)
    }
  }

  /** The manager's public rally fields. */
  datatype Rally = Rally(state: GameState, lastHit: Option<Slot>, server: Slot, leftAttack: bool)

  /** Everything the manager reads or writes: the rally fields, the players'
      bodies and the positions recorded at Start, the ball and the score. */
  datatype Court = Court(
    rally: Rally,
    players: Squad<Body>,
    origins: Squad<Vec3>,
    ball: Ball,
    score: ScoreManager.Score)

  const LeftServeLocation: Vec3 := Vec3(-10.0, 1.0, 0.0)
  const RightServeLocation: Vec3 := Vec3(10.0, 1.0, 0.0)

  /** The fixed serving order. */
  const ServeOrder: seq<Slot> := [RightPlayer1, LeftPlayer1, RightPlayer2, LeftPlayer2]

  function OrderIndex(s: Slot): (i: nat)
    ensures i < |ServeOrder| && ServeOrder[i] == s
  {
    match s
    case RightPlayer1 => 0
    case LeftPlayer1 => 1
    case RightPlayer2 => 2
    case LeftPlayer2 => 3
  }

  /** Hands the serve to the next player of the order; the attacking side
      becomes the new server's side. */
  function RotateServer(r: Rally): (r': Rally)
    ensures r'.server == ServeOrder[(OrderIndex(r.server) + 1) % |ServeOrder|]
    ensures r'.leftAttack <==> OnLeftTeam(r'.server)
    ensures r'.leftAttack <==> !OnLeftTeam(r.server)
    ensures r'.state == r.state && r'.lastHit == r.lastHit
  {
    if r.server == RightPlayer1 then r.(server := LeftPlayer1, leftAttack := true)
    else if r.server == LeftPlayer1 then r.(server := RightPlayer2, leftAttack := false)
    else if r.server == RightPlayer2 then r.(server := LeftPlayer2, leftAttack := true)
    else r.(server := RightPlayer1, leftAttack := false)
  }

  function RotateTimes(r: Rally, n: nat): Rally
    decreases n
  {
    if n == 0 then r else RotateServer(RotateTimes(r, n - 1))
  }

  /** Any multiple of four rotations hands the serve back to the same player,
      with that player's side attacking. */
  lemma {:induction false} RotationCycles(r: Rally, k: nat)
    ensures RotateTimes(r, 4 * k).server == r.server
    ensures k > 0 ==> (RotateTimes(r, 4 * k).leftAttack <==> OnLeftTeam(r.server))
    ensures RotateTimes(r, 4 * k).state == r.state && RotateTimes(r, 4 * k).lastHit == r.lastHit
    decreases k
  {
    if k > 0 {
      RotationCycles(r, k - 1);
      var n := 4 * (k - 1);
      var q := RotateTimes(r, n);
      assert RotateTimes(r, n + 1) == RotateServer(q);
      assert RotateTimes(r, n + 2) == RotateServer(RotateTimes(r, n + 1));
      assert RotateTimes(r, n + 3) == RotateServer(RotateTimes(r, n + 2));
      assert 4 * k == n + 4;
      assert RotateTimes(r, 4 * k) == RotateServer(RotateTimes(r, n + 3));
    }
  }

  /** Starting from the first right player, the serve visits RP1, LP1, RP2,
      LP2 in turn, with the attacking side alternating right, left, right, left. */
  lemma RotationFromStart(r: Rally)
    requires r.server == RightPlayer1
    ensures RotateTimes(r, 1).server == LeftPlayer1 && RotateTimes(r, 1).leftAttack
    ensures RotateTimes(r, 2).server == RightPlayer2 && !RotateTimes(r, 2).leftAttack
    ensures RotateTimes(r, 3).server == LeftPlayer2 && RotateTimes(r, 3).leftAttack
    ensures RotateTimes(r, 4).server == RightPlayer1 && !RotateTimes(r, 4).leftAttack
  {
  }

  /** Where the server stands and where the ball waits at the start of a point. */
  function ServerSpot(leftAttack: bool): Vec3 {
    if leftAttack then LeftServeLocation else RightServeLocation
  }

  function BallSpot(leftAttack: bool): Vec3 {
    if leftAttack then Add(LeftServeLocation, Vec3(1.0, 0.0, 0.0))
    else Sub(RightServeLocation, Vec3(1.0, 0.0, 0.0))
  }

  /** The configuration every point starts from. */
  ghost predicate ReadyForServe(c: Court) {
    && c.rally.state == PointStart
    && c.rally.lastHit == None
    && (forall s: Slot :: c.players.At(s).vel == Zero)
    && (forall s: Slot :: s != c.rally.server ==> c.players.At(s).pos == c.origins.At(s))
    && c.players.At(c.rally.server).pos == ServerSpot(c.rally.leftAttack)
    && c.ball.vel == Zero
    && !c.ball.useGravity
    && c.ball.pos == BallSpot(c.rally.leftAttack)
  }

  /** Resets the rally for the next point. The server and the attacking side
      are kept; the server stands behind the attacking side's baseline with
      the ball one unit in front, toward the net. */
  function NextPoint(c: Court): (r: Court)
    ensures ReadyForServe(r)
    ensures r.rally.server == c.rally.server && r.rally.leftAttack == c.rally.leftAttack
    ensures r.origins == c.origins && r.score == c.score && r.ball.goingTo == c.ball.goingTo
    ensures c.rally.leftAttack ==>
              r.players.At(c.rally.server).pos == Vec3(-10.0, 1.0, 0.0) && r.ball.pos == Vec3(-9.0, 1.0, 0.0)
    ensures !c.rally.leftAttack ==>
              r.players.At(c.rally.server).pos == Vec3(10.0, 1.0, 0.0) && r.ball.pos == Vec3(9.0, 1.0, 0.0)
  {
    var atOrigin := Squad(
      Body(c.origins.lp1, Zero), Body(c.origins.lp2, Zero),
      Body(c.origins.rp1, Zero), Body(c.origins.rp2, Zero));
    var players := atOrigin.With(c.rally.server, Body(ServerSpot(c.rally.leftAttack), Zero));
    var ball := c.ball.(vel := Zero, pos := BallSpot(c.rally.leftAttack), useGravity := false);
    c.(players := players, ball := ball,
       rally := c.rally.(state := PointStart, lastHit := None))
  }

  /** A court already in the start-of-point configuration is not changed by
      the reset; in particular the reset is idempotent. */
  lemma NextPointFixesReady(c: Court)
    requires ReadyForServe(c)
    ensures NextPoint(c) == c
  {
    var r := NextPoint(c);
    assert r.players.lp1 == c.players.lp1 by { assert r.players.At(LeftPlayer1) == c.players.At(LeftPlayer1); }
    assert r.players.lp2 == c.players.lp2 by { assert r.players.At(LeftPlayer2) == c.players.At(LeftPlayer2); }
    assert r.players.rp1 == c.players.rp1 by { assert r.players.At(RightPlayer1) == c.players.At(RightPlayer1); }
    assert r.players.rp2 == c.players.rp2 by { assert r.players.At(RightPlayer2) == c.players.At(RightPlayer2); }
  }

  lemma NextPointIdempotent(c: Court)
    ensures NextPoint(NextPoint(c)) == NextPoint(c)
  {
    NextPointFixesReady(NextPoint(c));
  }

  /** Game start: records every player's position as its origin, gives the
      serve to the first right player with the right side attacking, and
      starts the first point. */
  function Start(players: Squad<Body>, ball: Ball, score: ScoreManager.Score): (c: Court)
    ensures ReadyForServe(c)
    ensures c.rally == Rally(PointStart, None, RightPlayer1, false)
    ensures c.origins == Squad(players.lp1.pos, players.lp2.pos, players.rp1.pos, players.rp2.pos)
    ensures c.score == score
  {
    var origins := Squad(players.lp1.pos, players.lp2.pos, players.rp1.pos, players.rp2.pos);
    NextPoint(Court(Rally(PointStart, None, RightPlayer1, false), players, origins, ball, score))
  }

  /** Match reset: the first right player serves again, the score returns to
      0-0 and a new point starts. */
  function OnReset(c: Court): (r: Court)
    ensures ReadyForServe(r)
    ensures r.rally == Rally(PointStart, None, RightPlayer1, false)
    ensures r.score.side1 == 0 && r.score.side2 == 0
    ensures r.origins == c.origins
  {
    NextPoint(c.(rally := c.rally.(server := RightPlayer1, leftAttack := false),
                 score := ScoreManager.Start()))
  }

}
