# Volleyball rally bookkeeping, modelled in Dafny

This project models the decision logic of a two-sided volleyball game built on
Unity. The shared rally state lives in the game manager: the phase of the point,
the last player to touch the ball, the server, and which side attacks. Human hit
controllers query that state to decide who may touch the ball and which action
the phase allows. Each hit aims the ball by a lofted-or-flat targeting rule. The
ball turns gravity back on at its first contact. The score keeper counts points
and reports wins. The AI opponent runs its own four-phase cycle. Two movement
components handle steering, jumping and the grounded flag. An older,
self-contained bump/set controller is kept as a separate module.

Everything is a pure function over immutable records. Real numbers stand in for
Unity's floats. The engine's square root is a parameter (`Physics.sqrt`,
`Vectors.IsSqrt`) constrained only to behave as a square root. Input, collisions
and the time step are ordinary arguments.

Modules, one per source file plus four shared leaves:

- `Wrappers`: an `Option` type for nullable references.
- `Vectors`: `Vec3`, rigid-body state, a distance test without square roots, and
  Unity's `Normalize`, which returns zero at or below magnitude 1e-5.
- `Ballistics`: the `SetBallInitVelocity` rule. The human and AI controllers
  carry identical copies of it.
- `GameManager`, `BallManager`, `ScoreManager`.
- `PlayerBallInteract`: the human hit controller.
- `LegacyBallInteract`: the older controller.
- `AIBehavior`, `CharacterMovement`.
- `Locomotion`: steering, jump and the grounded rule. `AIBehavior` and
  `CharacterMovement` implement the same logic for these.

Behaviour worth knowing:

- A side wins with at least 3 points and a lead of **more than 2**, so (3,1)
  and (4,2) are not wins (`ScoreManager.WinExamples`).
- The score keeper never asks for a server rotation or a point reset. Nothing
  couples scoring to `RotateServer` or `NextPoint`.
- The human set uses apex height 5.0. The AI set and the legacy set use 6.0.
- A player on the attacking side may hit at `PointStart` even when it is not
  the server. Only the serve action checks for the server, so in practice only
  the server can act after a reset (`PlayerBallInteract.ResetOnlyServes`).
- `GameManager.OnReset` calls `scoreManager.ResetScore()`, but
  `ScoreManager.cs` declares no such method. The model treats it as zeroing
  both scores, which is what `Start` does.

## Model

| member | source | states |
|---|---|---|
| `Vectors.WithinIsDistance` | Assets/Scripts/Player/BallInteract.cs:133-138 | The square-root-free reach test holds exactly when the true distance to the ball is at most the interaction radius. |
| `Vectors.Normalize` | Assets/Scripts/Player/BallInteract.cs:297-301 | A vector longer than 1e-5 becomes a unit vector that gives back the original when scaled by the original length. A shorter vector becomes zero. |
| `Ballistics.DepthShift` | Assets/Scripts/Player/BallInteract.cs:206-213 | The directional bias is -4 exactly below -0.64, +4 exactly above 0.64, and 0 in between. |
| `Ballistics.RiseSpeed` | Assets/Scripts/Player/BallInteract.cs:272-273 | The upward launch speed is positive, and an arc launched at that speed peaks exactly at the requested apex height. |
| `Ballistics.FallSpeed` | Assets/Scripts/Player/BallInteract.cs:276 | The reference descent speed is positive and equals the speed gained by falling from height 5. |
| `Ballistics.AirTime` | Assets/Scripts/Player/BallInteract.cs:275-279 | The estimated airtime of a lofted hit is strictly positive and depends only on heights. |
| `Ballistics.LoftedVelocity` | Assets/Scripts/Player/BallInteract.cs:263-287 | A lofted launch rises, peaks at the apex height, and covers the horizontal offset to the target in exactly the estimated airtime. |
| `Ballistics.FlatVelocity` | Assets/Scripts/Player/BallInteract.cs:288-305 | A flat launch points straight at the target with speed equal to the spike speed. It is zero when the target is within 1e-5 of the ball. |
| `Ballistics.SetBallInitVelocity` | Assets/Scripts/Player/BallInteract.cs:260-306 | Gravity ends up on exactly when the apex is above the ball. The velocity is lofted in that case and flat otherwise. Position and destination are kept. |
| `Ballistics.NonPositiveApexIsFlat` | Assets/Scripts/AIBehavior.cs:223-240 | A hit whose apex is not above the ball is flat and switches gravity off. |
| `Ballistics.LoftedGoesUp` | Assets/Scripts/AIBehavior.cs:197-222 | A hit whose apex is above the ball switches gravity on and launches the ball upward. |
| `ScoreManager.Start` | Assets/Scripts/ScoreManager.cs:8-12 | Both scores start at 0, and at 0-0 no side is reported as winning. |
| `ScoreManager.CheckWin` | Assets/Scripts/ScoreManager.cs:34-44 | A side is reported as winning iff it has at least 3 points and leads by at least 3. The two reports never hold together. The check returns a report and changes no score. |
| `ScoreManager.OnCollisionEnter` | Assets/Scripts/ScoreManager.cs:15-31 | Landing on the Side1 floor adds one point to side 2 only, and the reverse for Side2. Any other collision changes nothing and reports nothing. A scoring collision reports the win check on the new score. |
| `ScoreManager.ReplayCounts` | Assets/Scripts/ScoreManager.cs:15-31 | Over any sequence of collisions, each side gains exactly one point per landing on the other side's floor, so scores never decrease. |
| `ScoreManager.WinExamples` | Assets/Scripts/ScoreManager.cs:36-40 | (3,0) and (5,2) are wins for side 1. (3,1), (4,2), (4,3) and (5,3) are not. Side 2 mirrors this. |
| `ScoreManager.CheckWinSymmetric` | Assets/Scripts/ScoreManager.cs:36-43 | The side-2 win condition is the side-1 condition with the scores swapped. |
| `GameManager.RotateServer` | Assets/Scripts/Managers/GameManager.cs:108-133 | The serve passes to the next player of the order RP1, LP1, RP2, LP2. The left side attacks exactly when the new server is a left player. Phase and last hitter are kept. |
| `GameManager.RotationCycles` | Assets/Scripts/Managers/GameManager.cs:108-133 | Any multiple of four rotations returns the serve to the same player, with that player's side attacking. |
| `GameManager.RotationFromStart` | Assets/Scripts/Managers/GameManager.cs:110-131 | From RP1, rotations visit LP1, RP2, LP2 and RP1 again, and the attacking side alternates left, right, left, right. |
| `GameManager.NextPoint` | Assets/Scripts/Managers/GameManager.cs:149-182 | The rally is reset to PointStart with no last hitter. All players and the ball stop. Every non-server is back at its origin. The server stands at (∓10,1,0) and the ball at (∓9,1,0) on the attacking side. Ball gravity is off. Server, attacking side, score and ball destination are kept. |
| `GameManager.NextPointFixesReady` | Assets/Scripts/Managers/GameManager.cs:149-182 | A court already in the start-of-point configuration is left unchanged by the reset. |
| `GameManager.NextPointIdempotent` | Assets/Scripts/Managers/GameManager.cs:149-182 | Resetting twice gives the same court as resetting once. |
| `GameManager.Start` | Assets/Scripts/Managers/GameManager.cs:44-105 | Each player's starting position becomes its origin. RP1 serves with the right side attacking, no one has hit yet, and the first point is ready. |
| `GameManager.OnReset` | Assets/Scripts/Managers/GameManager.cs:136-147 | RP1 serves again with the right side attacking, the score is 0-0, and a new point is ready. |
| `BallManager.OnCollisionEnter` | Assets/Scripts/Managers/BallManager.cs:22-29 | Gravity is on afterwards iff it was already on or the phase is not PointStart. At PointStart the ball is unchanged. Gravity is never turned off. Nothing but the flag changes. |
| `BallManager.OnCollisionEnterIdempotent` | Assets/Scripts/Managers/BallManager.cs:22-29 | Delivering the same collision twice has the effect of delivering it once. |
| `BallManager.ResetBallFloats` | Assets/Scripts/Managers/BallManager.cs:25-28 | After a point reset, a collision leaves the ball's gravity off. |
| `PlayerBallInteract.Attach` | Assets/Scripts/Player/BallInteract.cs:19 | A controller starts with the zero vector as its remembered bump destination. |
| `PlayerBallInteract.CanHit` | Assets/Scripts/Player/BallInteract.cs:110-130 | The last hitter may never hit. Any other player may hit iff exactly one holds: it plays on the attacking side, or the phase is Served or Spiked. |
| `PlayerBallInteract.NearMeansWithinRadius` | Assets/Scripts/Player/BallInteract.cs:133-138 | The player is near the ball exactly when the distance between them is at most the interaction radius. |
| `PlayerBallInteract.Hit` | Assets/Scripts/Player/BallInteract.cs:152-154 | Every hit records its target as the ball's destination and keeps the ball's position. Gravity is on exactly when the apex is above the ball, with the lofted launch then and the flat one otherwise. The set, spike and serve (lines 181-183, 215-217, 249-251) hit the same way. |
| `PlayerBallInteract.Fired` | Assets/Scripts/Player/BallInteract.cs:65-107 | An action fires iff the player may hit, the phase calls for that action, its button was performed, and the player is in position. In position means within reach for bump, set and spike, and being the server for the serve. Blocked calls for nothing. |
| `PlayerBallInteract.BumpBall` | Assets/Scripts/Player/BallInteract.cs:141-160 | The bump aims at (2,0,0), or (-2,0,0) on the left court, and is remembered for the next set. The phase becomes Bumped, the player becomes last hitter, and its side attacks. |
| `PlayerBallInteract.SetBall` | Assets/Scripts/Player/BallInteract.cs:163-188 | The set aims at the remembered bump destination, shifted in depth by the directional bias. The phase becomes Set and the player becomes last hitter. The attacking side is kept. |
| `PlayerBallInteract.AttackTarget` | Assets/Scripts/Player/BallInteract.cs:194-213 | Spike and serve targets are at x = 8 from the left court and x = -8 from the right court, at depth given by the directional bias. |
| `PlayerBallInteract.SpikeBall` | Assets/Scripts/Player/BallInteract.cs:191-222 | The spike aims into the opponent's back court. The phase becomes Spiked and the player becomes last hitter. The attacking side is kept. |
| `PlayerBallInteract.ServeBall` | Assets/Scripts/Player/BallInteract.cs:225-257 | The serve aims into the opponent's back court with apex 6. The phase becomes Served, the server becomes last hitter, and its side attacks. |
| `PlayerBallInteract.CheckState` | Assets/Scripts/Player/BallInteract.cs:65-107 | With no action fired, nothing changes. Otherwise the phase becomes the action's phase and the player becomes last hitter. The attacking side changes only on bump and serve. The server and the ball's position are kept. |
| `PlayerBallInteract.Update` | Assets/Scripts/Player/BallInteract.cs:55-62 | Nothing happens while the ball is missing. Otherwise the frame is `CheckState`. |
| `PlayerBallInteract.PhaseOrder` | Assets/Scripts/Player/BallInteract.cs:71-105 | A frame either changes nothing or moves the rally along PointStart→Served, Served/Spiked→Bumped, Bumped→Set, Set→Spiked. A blocked ball is never played. |
| `PlayerBallInteract.NoDoubleTouch` | Assets/Scripts/Player/BallInteract.cs:113 | Right after a player's hit, any further frame of that player changes nothing, whatever it presses and wherever the ball is. |
| `PlayerBallInteract.ResetIsConsistent` | Assets/Scripts/Managers/GameManager.cs:149-182 | The point reset leaves the rally waiting for a serve with no last hitter, which is the rally invariant. |
| `PlayerBallInteract.PlayKeepsConsistent` | Assets/Scripts/Player/BallInteract.cs:65-107 | Over any sequence of frames by any players, the last hitter stays cleared exactly while a serve is awaited. The rally never becomes Blocked. The server and the ball's position never change, and every controller keeps the player it belongs to. |
| `PlayerBallInteract.FreshSetterAimsAtNet` | Assets/Scripts/Player/BallInteract.cs:163-183 | After a bump to (±2,0,0), a teammate that has never bumped sets toward (0,0,0) when the directional input is neutral. |
| `PlayerBallInteract.SetBallIntended` | Assets/Scripts/Player/BallInteract.cs:163-188 | The corrected set aims at the ball's recorded destination, shifted in depth by the directional bias. It keeps the controller and moves the rally to Set with the setter as last hitter. |
| `PlayerBallInteract.IntendedSetFollowsBump` | Assets/Scripts/Player/BallInteract.cs:141-188 | With the corrected set, a bump and then any teammate's set send the ball to the bumper's front court, (±2,0,z) with z from the bias, whatever the setter remembers. |
| `PlayerBallInteract.HitModes` | Assets/Scripts/Player/BallInteract.cs:263-305 | A spike at a ball at or above height -1 is flat with gravity off. A bump or set below height 5, and a serve below height 6, are lofted with gravity on. |
| `PlayerBallInteract.ResetOnlyServes` | Assets/Scripts/Player/BallInteract.cs:98-104 | After a point reset the only possible action is the serve, by the server on the attacking side. It is lofted, turns gravity on, and aims across the net. |
| `Locomotion.Steer` | Assets/Scripts/CharacterMovement.cs:28-45 | Steering keeps the vertical velocity. It changes nothing for a zero direction. Otherwise the horizontal speed stays within the ground or air cap. |
| `Locomotion.Jump` | Assets/Scripts/CharacterMovement.cs:51-55 | A jump adds the jump force to the vertical velocity and changes nothing else. |
| `Locomotion.GroundedAfterEnter` | Assets/Scripts/CharacterMovement.cs:59-66 | Touching layer 6 sets the grounded flag. Other layers keep it. |
| `Locomotion.GroundedAfterExit` | Assets/Scripts/CharacterMovement.cs:69-76 | Leaving layer 6 clears the grounded flag. Other layers keep it. |
| `Locomotion.ContactEventsIdempotent` | Assets/Scripts/AIBehavior.cs:244-263 | Repeated contact events act once, and the last court event decides the flag. |
| `CharacterMovement.Start` | Assets/Scripts/CharacterMovement.cs:12 | A character starts not grounded. |
| `CharacterMovement.FixedUpdate` | Assets/Scripts/CharacterMovement.cs:22-56 | A jump happens iff the character is grounded and Jump is held. It adds the jump force and clears grounded. Otherwise grounded and vertical speed are kept. Zero move input keeps the horizontal velocity. |
| `CharacterMovement.OnCollisionEnter` | Assets/Scripts/CharacterMovement.cs:59-66 | After a contact starts, the character is grounded iff it already was or the contact is layer 6. |
| `CharacterMovement.OnCollisionExit` | Assets/Scripts/CharacterMovement.cs:69-76 | After a contact ends, the character is grounded iff it was and the contact was not layer 6. |
| `CharacterMovement.NoDoubleJump` | Assets/Scripts/CharacterMovement.cs:51-55 | Right after a jump the character is airborne, and holding Jump again adds no vertical speed. |
| `AIBehavior.Start` | Assets/Scripts/AIBehavior.cs:33-47 | An agent starts Waiting, not grounded, with no bump destination. |
| `AIBehavior.SameSideMeansSameHalf` | Assets/Scripts/AIBehavior.cs:63 | The product test holds exactly when the ball and the agent are on the same half of the court. A point on the net line counts for both halves. |
| `AIBehavior.NearMeansWithinRadius` | Assets/Scripts/AIBehavior.cs:108-112 | The agent is near the ball exactly when the distance between them is at most the interaction radius. |
| `AIBehavior.MoveAI` | Assets/Scripts/AIBehavior.cs:114-143 | Chasing never moves the body directly and keeps the vertical velocity. It does nothing when the ball is straight above. Otherwise it stays within the speed cap. |
| `AIBehavior.BumpTarget` | Assets/Scripts/AIBehavior.cs:145-152 | The AI bumps to (1,0,0), negated exactly when the ball is at negative x. |
| `AIBehavior.SpikeTarget` | Assets/Scripts/AIBehavior.cs:173-184 | The AI spikes to (8,0,0), negated exactly when the ball is at positive x. |
| `AIBehavior.CheckState` | Assets/Scripts/AIBehavior.cs:58-106 | Each frame advances the cycle by at most one phase. Waiting→Bumping happens iff the ball is on the agent's half and the agent is grounded. Bumping→Setting and Setting→Spiking happen iff the ball is near and descending; otherwise the agent only moves. Spiking does nothing on a rising ball. On a descending ball it jumps if grounded, and if airborne and near it spikes flat and returns to Waiting. Apexes are 5, 6 and -1. The ball's position and destination are never changed. |
| `AIBehavior.Update` | Assets/Scripts/AIBehavior.cs:50-56 | Nothing happens while the ball is missing. Otherwise the frame is `CheckState`. |
| `AIBehavior.OnCollisionEnter` | Assets/Scripts/AIBehavior.cs:244-252 | After a contact starts, the agent is grounded iff it already was or the contact is layer 6. Nothing else changes. |
| `AIBehavior.OnCollisionExit` | Assets/Scripts/AIBehavior.cs:255-263 | After a contact ends, the agent is grounded iff it was and the contact was not layer 6. Nothing else changes. |
| `AIBehavior.CycleHasLengthFour` | Assets/Scripts/AIBehavior.cs:62-104 | Four successful actions return the agent to its phase, and each action changes the phase. |
| `AIBehavior.SpikeIsFlatAcrossNet` | Assets/Scripts/AIBehavior.cs:90-104 | An airborne spike at a descending ball within reach, at height -1 or above, is flat and ends the cycle. From positive x it sends the ball strictly toward negative x, and from x ≤ 0 strictly toward positive x. |
| `AIBehavior.FlatTowardFarTarget` | Assets/Scripts/AIBehavior.cs:223-240 | A flat hit at a target at least 8 away in x is normalised rather than zeroed, and its x velocity has the sign of the offset to the target. |
| `AIBehavior.RunKeepsAimed` | Assets/Scripts/AIBehavior.cs:58-106 | Over any sequence of frames and contacts, the remembered bump destination is unset or (±1,0,0), and it is always set while the agent is Setting or Spiking. Reach and movement settings never change. |
| `AIBehavior.SetsAimAtFrontCourt` | Assets/Scripts/AIBehavior.cs:145-165 | From a fresh agent, whatever happens, an agent about to set aims at (1,0,0) or (-1,0,0), never at the unset zero destination. |
| `LegacyBallInteract.IsPlayerNearBall` | Assets/Scripts/BallInteract.cs:116-122 | The player is near iff a ball exists and is within reach. |
| `LegacyBallInteract.SetBallInitVelocity` | Assets/Scripts/BallInteract.cs:210-232 | Only a hit whose apex is above the ball changes it, and only its velocity, which becomes the lofted launch. The gravity flag, position and destination are never touched. |
| `LegacyBallInteract.OnInteract` | Assets/Scripts/BallInteract.cs:94-114 | The bump acts only on a ball within reach and aims at the fixed point (1,0,0) with apex 5. Otherwise the ball is unchanged. |
| `LegacyBallInteract.SetTarget` | Assets/Scripts/BallInteract.cs:169-208 | The set destination is the fixed bump point (1,0,0), moved to depth -4 or 4 by a directional input beyond ±0.64. |
| `LegacyBallInteract.SetBall` | Assets/Scripts/BallInteract.cs:169-208 | The set acts only on a ball within reach and aims at (1,0,-4), (1,0,4) or (1,0,0) by the directional bias, with apex 6. |
| `LegacyBallInteract.Update` | Assets/Scripts/BallInteract.cs:124-134 | A held Bump wins over a held Set, and with neither held nothing happens. |
| `LegacyBallInteract.FrameOnlyChangesVelocity` | Assets/Scripts/BallInteract.cs:210-232 | A frame changes at most the ball's velocity. A ball out of reach, or a bump at a ball at or above height 5, is left as it was. |
| `LegacyBallInteract.BumpAimsAtFixedPoint` | Assets/Scripts/BallInteract.cs:163-167 | A lofted bump from either side of the court reaches x = 1, z = 0 within the estimated airtime, rising. |

## Findings

| source | as written | input that shows it | evidently intended | confidence | as-written member | corrected member |
|---|---|---|---|---|---|---|
| Assets/Scripts/Player/BallInteract.cs:166 | The set aims at the setter's own `bumpToLocation`. That field is (0,0,0) until the setter itself has bumped, and the setter is never the bumper. | RP1 serves, LP1 bumps toward (-2,0,0), and LP2, which has never bumped, sets with a neutral stick. The ball is sent toward (0,0,0), the centre of the net line. | The set aims at the destination the bump gave the ball, which is the bumping side's front court. | medium; not executed | `PlayerBallInteract.FreshSetterAimsAtNet` | `PlayerBallInteract.SetBallIntended` |

The frame functions `PlayerBallInteract.CheckState` and `PlayerBallInteract.Play`
keep the set as written, so that they describe the game as it behaves.
`PlayerBallInteract.IntendedSetFollowsBump` states the corrected behaviour.

## Left out

- Floating point: the model computes over exact reals. The source uses 32-bit floats, so rounding, and the fact that the literal `0.64f` is not exactly 0.64, are not modelled.
- Square root: the engine's square root is a parameter that is exact on non-negative reals.
- `Ballistics.LoftedVelocity`, `Ballistics.AirTime` and every hit require gravity of positive magnitude. With zero gravity the lofted branch of the source divides by zero and produces infinities or NaN, which reals cannot express. The flat branch (`Ballistics.FlatVelocity`) needs only the square root.
- The Unity lifecycle (`Start`/`Update`/`FixedUpdate` scheduling), `FindGameObjectWithTag`, `GetComponent`, input polling and `Debug.Log*` are not modelled. Inputs and collision events are plain arguments. Collisions are identified only by tag or layer.
- The legacy controller's action subscription and unsubscription and its map enabling (Assets/Scripts/BallInteract.cs:24-68, 70-92) are not modelled. Its performed-event bump has the same logic as the held-button fallback, and both are `LegacyBallInteract.OnInteract`.
- Missing-reference branches are not modelled: the missing-object error logs in `GameManager.Start`, the "no rigidbody" warnings, and the exceptions a missing rigidbody or direction action would raise. Only "no ball, no effect" is kept. Also left out is the always-true `ballOrigin != null` test (a value type compared with null). The ball origin it records is never used afterwards.
- Player identities are the four slots wired into the game manager. A server or last hitter that is some other object cannot be represented, so `RotateServer`'s final branch is reached only from LP2.
- Physics integration is not modelled: gravity acting over time, collision detection, and how velocities move bodies.
- The fixed time step `Time.fixedDeltaTime` is a parameter.
- The private `setToLocation`, `spikeToLocation` and `serveToLocation` fields are not kept as state. They are overwritten before every use. Only `bumpToLocation` carries over between frames.
- Scores are unbounded integers. C# `int` overflow after 2^31 points is not modelled.
- The `Blocked` phase exists only as a value: nothing in the code ever enters it.
