# Platform fighter: per-tick entity logic

A Dafny model of the simulation core of a small SDL platform game: a player
and an enemy move over four fixed platforms; the player swings a melee attack
on a cooldown; the enemy walks at speed 2, turning back at the screen edges
and at the patrol bounds of the platform it tracks (see below), and loses one
health per hit. The model covers the integer-rectangle collision primitives,
the player's input, attack and cooldown counters, its swept collision pass and
screen clamp, the enemy's collision loop with platform tracking, patrol
bounds, walk-off reversal and clamps, `isHit`, and `Game::update`'s combat
gating together with the main loop's input-then-update order.

Layout, one module per source component:

- `geometry.dfy` (`Geometry`): `SDL_Rect`, the strict overlap test
  `checkCollision`, SDL's intersection test, the overlap measures and push-out
  positions of `resolveCollision`.
- `platform.dfy` (`Wrappers`, `Platforms`): the immutable platform and the
  level built by `Game::init`.
- `attack.dfy` (`PlayerAttack`): the player's four attack fields, the gated
  start, the per-update counting and the bound on hit ticks.
- `player.dfy` (`PlayerModel`): the `Player` class and the functions that
  specify its methods.
- `enemy.dfy` (`EnemyModel`): the `Enemy` class and the functions that
  specify its methods.
- `game.dfy` (`GameModel`): the `Game` class, `update`, and runs of the main
  loop.

Each class keeps the source's fields and its methods follow the source
statement by statement; each method's `ensures` ties the new state to a pure
function of the old state (`State() == UpdateStep(old(State()), ...)`), and the
properties are proved about those functions.

Modelling choices:

- Positions and velocities are `int`. Every write to a horizontal position is
  an integer or a change by the integer speeds 5 and 2. Vertical positions
  are floats only because of gravity, so the gravity step (`velY += 0.8`) is
  not modelled. Instead, `Player.Update`, `Enemy.Update` and each loop
  iteration take the vertical velocity after gravity as a parameter. That
  parameter is free: nothing ties it to the `velY` the state held before the
  update, so the jump velocity set by input is replaced by it, and a jump
  reaches the update only through `isJumping`. The collision layer works on the truncated integer rectangle, as `getRect` does.
- The enemy's `currentPlatform` pointer is an `Option<nat>` index into the
  platform list.
- `SDL_HasIntersection` is given the meaning of SDL2's own rule: false when
  either rectangle has no width or no height, else strict overlap.
  `HasIntersectionIffSharePixel` proves this is exactly "some pixel lies in
  both".
- `src/Game.cpp:49` calls a four-argument `Enemy` constructor that
  `include/Enemy.h` does not declare. The model uses the two-argument
  constructor of `src/Enemy.cpp:3` at (150, 350), with bounds 0 and 0.
- `Game`'s constructor stands for the simulation part of `init`
  (`src/Game.cpp:39-49`): the four platforms, the player at the window's
  middle, the enemy at its spawn point.

What the code does, and the model keeps:

- Enemy `resolveCollision` sets `isGrounded` only in the branch that snaps
  the enemy below a platform (`src/Enemy.cpp:152-156`). A push-out onto a
  platform's top leaves it unset (`LandingOnTopIsNotGrounded`), so the
  tracked platform is one the enemy was pushed beneath.
- The enemy's walk-off probe is the pixel one row below the enemy's top edge
  (`src/Enemy.cpp:51-56`). It misses a platform under the feet, and also one
  the enemy was just snapped beneath (`ProbeMissesPlatformUnderFeet`).
- The enemy moves only by its patrol logic. It has no attack, and the player
  has no health.
- The level has four platforms. The platform constructor accepts any size,
  zero and negative included.
- The cooldown is counted down while `!canAttack` (`src/Player.cpp:30-35`).
  Under the counter invariant this is the same as "while the timer is
  positive".
- `Player::update` does not call `resolveCollision`. It checks swept path
  rectangles instead. `Player::resolveCollision` is modelled on its own.

## Model

| member | source | states |
|---|---|---|
| Geometry.Overlaps | src/Player.cpp:177-182 | checkCollision holds exactly when both overlap measures of resolveCollision are positive, i.e. both projections overlap strictly |
| Geometry.HasIntersection | src/Enemy.cpp:111 | SDL_HasIntersection is false whenever either rectangle is empty, and when it holds the strict test holds too |
| Geometry.OverlapsSymmetric | src/Player.cpp:177-182 | the collision test gives the same answer with its arguments swapped |
| Geometry.TouchingDoesNotOverlap | src/Player.cpp:177-182 | rectangles that only meet along an edge do not collide |
| Geometry.OverlapsIffSharePixel | src/Enemy.cpp:118-123 | for non-empty rectangles the strict test holds exactly when some pixel lies in both |
| Geometry.HasIntersectionIffSharePixel | src/Enemy.cpp:111 | the intersection test used by isHit holds exactly when some pixel lies in both, empty rectangles included |
| Geometry.EmptyRectangleCanOverlap | src/Player.cpp:177-182 | unlike SDL's test, checkCollision reports a zero-size rectangle inside another as colliding |
| Geometry.OverlapX | src/Player.cpp:189-190 | overlapX is positive exactly when the x-projections overlap strictly |
| Geometry.OverlapY | src/Player.cpp:191-192 | overlapY is positive exactly when the y-projections overlap strictly |
| Geometry.PushedX | src/Player.cpp:196-200 | the sideways push-out leaves the body touching the platform's left or right edge and not overlapping it |
| Geometry.PushedY | src/Player.cpp:203-208 | the vertical push-out leaves the body touching the platform's top or bottom and not overlapping it |
| Platforms.NewPlatform | src/Platform.cpp:3-5 | the constructor stores x, y, width, height in that order and accepts any values |
| Platforms.Platform.GetRect | include/Platform.h:8 | getRect returns the stored rectangle unchanged |
| Platforms.Level | src/Game.cpp:40-43 | the level is exactly the ground and three ledges, in push order |
| Platforms.LevelPlatformsAreWide | src/Game.cpp:40-43 | every level platform is non-empty and at least 200 wide |
| PlayerAttack.ReadyIsValid | include/Player.h:37-39 | the field initialisers satisfy the counter invariant |
| PlayerAttack.AttackingIsCoolingDown | include/Player.h:35-37 | while attacking no new attack is allowed, with more than 10 cooldown ticks left |
| PlayerAttack.Start | src/Player.cpp:154-159 | an attack starts only with Z held, canAttack and no running attack, at frame 0 with the full cooldown; otherwise all four fields stay the same; the invariant is kept |
| PlayerAttack.Tick | src/Player.cpp:21-35 | a running swing advances one frame and ends exactly when it reaches 10; the cooldown counts down only while attacks are barred and frees them at 0; the invariant is kept |
| PlayerAttack.InvAfter | src/Player.cpp:21-35 | the counter invariant holds after any sequence of input-then-update ticks |
| PlayerAttack.HitsWithinBudget | src/Player.cpp:21-35 | the hit ticks of a run of at most 20 ticks are bounded by what is left of the swing plus one swing after the cooldown |
| PlayerAttack.AtMostFourHitTicksPerCooldown | src/Player.cpp:162-166 | at most 4 of any 20 consecutive ticks end inside the hit window, whatever the keys |
| PlayerAttack.SwingHasFourHitTicks | src/Player.cpp:154-166 | a swing from the ready state does reach 4 consecutive hit ticks |
| PlayerModel.InitialPlayer | src/Player.cpp:4-6 | a new player is at rest, facing right, not jumping, with ready attack counters |
| PlayerModel.BodyRect | include/Player.h:12 | getRect is the 50 by 50 body at the player's position |
| PlayerModel.InputStep | src/Player.cpp:135-160 | Left beats Right so velX is -5, 5 or 0; facing changes only with a direction key; a jump needs !isJumping; the attack start is gated as in Start; position is untouched |
| PlayerModel.AttackRect | src/Player.cpp:162-175 | empty exactly from frame 5 on; else a 60 by 50 box beside the body on the facing side; it never intersects the body, and the empty one intersects nothing |
| PlayerModel.Resolved | src/Player.cpp:184-212 | a sideways push zeroes velX and keeps y and velY; a vertical push zeroes velY and clears isJumping only in the below branch; the body then does not overlap the platform |
| PlayerModel.VerticalSweep | src/Player.cpp:47-78 | a falling player whose path from the old to the new y meets the platform lands on its top with velY 0 and not jumping; a rising one whose path meets it stops just below it with velY 0; otherwise nothing changes; x, velX and the counters are never touched |
| PlayerModel.HorizontalSweep | src/Player.cpp:80-97 | a player moving sideways whose path meets the platform stops against the side it moves towards with velX 0; otherwise nothing changes; y, velY and isJumping are never touched |
| PlayerModel.SweepStep | src/Player.cpp:44-97 | one loop iteration keeps facing and counters and only lands the player on the platform it checks |
| PlayerModel.Sweep | src/Player.cpp:44-98 | after the loop a player that landed has velY 0 and its feet on the top of some platform of the list; which one is stated by FirstFallWins |
| PlayerModel.FirstFallWins | src/Player.cpp:44-63 | a falling player that landed stands, with velY 0, on the first platform in list order whose fall path it meets, not on a nearer one later in the list |
| PlayerModel.StillFallingKeepsHeight | src/Player.cpp:47-63 | while a falling player has not landed, the loop leaves its y and velY as they were |
| PlayerModel.FallingPathLands | src/Player.cpp:43-63 | a falling player whose downward path meets any platform of the list has landed by the end of the loop |
| PlayerModel.UpdateStep | src/Player.cpp:8-103 | update ends with 0 <= x <= 750, advances the counters by one Tick, keeps the invariant, and a player not jumping stands on a platform top with velY 0 |
| PlayerModel.FallingPlayerLands | src/Player.cpp:8-63 | a falling player whose path down by the new vertical velocity meets any platform ends the update not jumping, with velY 0, on top of the first such platform in list order |
| PlayerModel.Player.constructor | src/Player.cpp:4-6 | the new object holds the initial player state |
| PlayerModel.Player.HandleInput | src/Player.cpp:135-160 | the new state is InputStep of the old one |
| PlayerModel.Player.Update | src/Player.cpp:8-103 | the new state is UpdateStep of the old one; the loop keeps the swept state equal to Sweep over the platforms seen so far |
| PlayerModel.Player.SweepAll | src/Player.cpp:44-98 | the loop over the platforms changes the state as Sweep says, one platform at a time in list order |
| PlayerModel.Player.TickAttack | src/Player.cpp:21-35 | only the attack fields change, by one Tick |
| PlayerModel.Player.SweepAgainst | src/Player.cpp:45-97 | one platform's path checks change the state as SweepStep says |
| PlayerModel.Player.ResolveCollision | src/Player.cpp:184-212 | the new state is Resolved of the old one, so the body no longer overlaps the platform |
| PlayerModel.Player.GetRect | include/Player.h:12 | getRect is the non-empty 50 by 50 rectangle at the player's position |
| PlayerModel.Player.GetAttackRect | src/Player.cpp:162-175 | the attack rectangle is empty exactly from frame 5 on and never intersects the player's own body |
| EnemyModel.InitialEnemy | include/Enemy.h:20-29 | a new enemy moves right at speed 2, has 3 health, is not grounded, has no platform and bounds 0 and 0 |
| EnemyModel.BodyRect | src/Enemy.cpp:19-24 | the enemy's rectangle is 40 by 60 at its position |
| EnemyModel.Resolved | src/Enemy.cpp:125-158 | a sideways push reverses velocityX and keeps y and velocityY; a vertical push zeroes velocityY and sets isGrounded only when the enemy's top is at or below the platform's; the body then does not overlap the platform |
| EnemyModel.LandingOnTopIsNotGrounded | src/Enemy.cpp:149-151 | a push-out onto a platform's top leaves the enemy on it by isOnPlatform's measure and does not set isGrounded |
| EnemyModel.WithBounds | src/Enemy.cpp:160-165 | the bounds become the platform's edges moved in by 5, so they are width - 10 apart; nothing else changes |
| EnemyModel.Collide | src/Enemy.cpp:26-35 | the loop never clears isGrounded; from a fresh start a platform is found exactly when grounded, and it is the last one the captured rectangle collides with |
| EnemyModel.Retarget | src/Enemy.cpp:37-43 | the found platform becomes current; bounds are recomputed only for a different, non-null one; going airborne keeps the old bounds |
| EnemyModel.WalkOff | src/Enemy.cpp:45-68 | if the one-pixel probe misses the current platform, velocityX flips and x returns to its value before the move; otherwise nothing changes |
| EnemyModel.ProbeMissesPlatformUnderFeet | src/Enemy.cpp:51-56 | the probe misses any platform under the feet and any platform the enemy was snapped beneath |
| EnemyModel.ScreenClamp | src/Enemy.cpp:70-77 | x ends in [0, 760], and a clamped enemy heads back onto the screen |
| EnemyModel.BoundClamp | src/Enemy.cpp:79-88 | with a platform, a body at or past a bound is put on it heading inward, and a body strictly inside is left alone; with bounds at least 40 apart the body ends between them |
| EnemyModel.UpdateStep | src/Enemy.cpp:5-89 | update keeps health and speed 2; the platform is current exactly when grounded and is the last colliding one; bounds follow the current platform; x ends on screen without a platform and between the bounds with a wide one |
| EnemyModel.StaysWithinBoundsOnLevel | src/Enemy.cpp:79-88 | on the level's platforms an enemy with a current platform always ends between its bounds |
| EnemyModel.HitStep | src/Enemy.cpp:102-116 | a hit is reported exactly when the attack rectangle intersects the body, and costs exactly one health; a miss changes nothing |
| EnemyModel.ThreeHitsDefeat | include/Enemy.h:23 | three hits defeat a fresh enemy, and two do not |
| EnemyModel.HitIgnoresDefeat | src/Enemy.cpp:102-116 | isHit has no alive guard: it lowers the health of a defeated enemy too |
| EnemyModel.Enemy.constructor | src/Enemy.cpp:3 | the new object holds the initial enemy state, valid for any platform list |
| EnemyModel.Enemy.Update | src/Enemy.cpp:5-89 | the new state is UpdateStep of the old one; the loop keeps the enemy and newPlatform equal to Collide over the platforms seen so far |
| EnemyModel.Enemy.FindPlatform | src/Enemy.cpp:26-35 | the collision loop changes the enemy and finds newPlatform as Collide says: the last colliding platform whose resolution leaves the enemy grounded |
| EnemyModel.Enemy.WalkOffCheck | src/Enemy.cpp:45-68 | the state changes as WalkOff says |
| EnemyModel.Enemy.ClampToScreen | src/Enemy.cpp:70-77 | the state changes as ScreenClamp says |
| EnemyModel.Enemy.ClampToBounds | src/Enemy.cpp:79-88 | the state changes as BoundClamp says |
| EnemyModel.Enemy.ResolveCollision | src/Enemy.cpp:125-158 | the new state is Resolved of the old one, so the body no longer overlaps the platform |
| EnemyModel.Enemy.UpdateMovementBounds | src/Enemy.cpp:160-165 | only the bounds change, as WithBounds says |
| EnemyModel.Enemy.IsHit | src/Enemy.cpp:102-116 | the new state and the result are those of HitStep |
| EnemyModel.Enemy.IsAlive | include/Enemy.h:12 | the object's isAlive is Alive of its state, the test on which update and the hit test are gated |
| GameModel.SpawnPlayer | src/Game.cpp:46 | the player starts at rest at the middle of the window |
| GameModel.UpdateWorld | src/Game.cpp:71-83 | the player is always updated; a live enemy is updated and, only while the player attacks, hit-tested once; health falls by at most one and only in the hit window; a defeated enemy is left as it was |
| GameModel.HitTestSeesAdvancedFrame | src/Game.cpp:72-78 | the hit test sees a running swing at frames 1 to 9, and a hit lands only at frames 1 to 4 |
| GameModel.Iteration | src/Game.cpp:107-111 | one loop iteration moves the attack counters by input then update, keeps the invariant, and costs health only in the hit window |
| GameModel.RunWorld | src/Game.cpp:107-116 | the loop of run, one iteration per input; the enemy's platform stays an entry of the list, and the attack counters end as After of the Z keys pressed |
| GameModel.RunKeepsInv | src/Game.cpp:107-111 | the invariant of player and enemy holds after any number of iterations |
| GameModel.HealthLossBoundedByHitTicks | src/Game.cpp:71-83 | over any run the enemy's health never rises and falls by at most the number of hit-window ticks |
| GameModel.AtMostFourHitsPerCooldown | src/Game.cpp:77-78 | the enemy loses at most 4 health in any 20 consecutive iterations |
| GameModel.DefeatedEnemyIsFrozen | src/Game.cpp:73 | once health is at most 0 no field of the enemy ever changes again |
| GameModel.Game.constructor | src/Game.cpp:39-49 | the game holds the four platforms, the player at the window's middle and the enemy at (150, 350), all valid |
| GameModel.Game.HandleEvents | src/Game.cpp:66-68 | the keyboard state goes to the player's input handling and nothing else changes |
| GameModel.Game.Update | src/Game.cpp:71-83 | the new world is UpdateWorld of the old one and the invariants are kept |
| GameModel.Game.Run | src/Game.cpp:107-116 | after the given iterations the world is RunWorld of the old one, each being input then update |

## Left out

- Rendering (`render` of every class, `Game::render`), window and renderer
  creation and teardown (`Game::init` before line 39, `cleanup`), event
  polling, `SDL_Delay` and `src/main.cpp`: these are I/O against SDL. The
  quit event is modelled as the end of the input sequence given to
  `Game.Run`.
- The gravity steps (`src/Player.cpp:14`, `src/Enemy.cpp:7`) and the float
  vertical position. The velocity after gravity is a free parameter of each
  update: it is not tied to the `velY` the state holds. So the
  `velY = JUMP_FORCE` that `InputStep` sets is overwritten by `UpdateStep`,
  and a jump reaches `update` only through `isJumping`. The player's
  swept path sizes are computed over integer positions, so float truncation
  there is not modelled.
- `JUMP_FORCE` is the integer -15. Floats would have the same value.
- The console message at `src/Game.cpp:79`.
- EnemyModel.Enemy.IsOnPlatform has no contract of its own. Its meaning is
  stated by `LandingOnTopIsNotGrounded`. The source never calls it.
- GameModel.Game.constructor takes a window size as `nat`. For a negative size
  C++ division would round toward zero. `src/main.cpp` passes 800 by 600.
- `SDL_Rect` fields and the C++ `int` sums over them (`x + w`,
  `platformRect.x + platformRect.w - 5`) are 32-bit and could overflow. The
  model uses unbounded integers. The level's coordinates stay below 1000, far
  from the limit.
- `SDL_HasIntersection` is not modelled from SDL's code. The model gives it
  the documented empty-rectangle rule.
