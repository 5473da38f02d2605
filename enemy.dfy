/** The enemy: the collision loop of update with its platform tracking, the
    patrol bounds taken from the tracked platform, the walk-off check, the
    screen and bound clamps, and the health that isHit takes away.

    Positions and velocities are integers. The gravity step of update
    (velocityY += 0.8) is float arithmetic and is not modelled: the caller
    supplies the vertical velocity after it (velocityYAfterGravity). The
    current-platform pointer becomes an index into the platform list. */
module EnemyModel {
  import opened Wrappers
  import opened Geometry
  import opened Platforms

  const WIDTH := 40
  const HEIGHT := 60
  const MOVE_SPEED := 2
  const SCREEN_WIDTH := 800
  /** Inset of the patrol bounds from the platform's edges. */
  const BOUND_MARGIN := 5
  const MAX_HEALTH := 3

  /** Every field of Enemy. */
  datatype EnemyState = EnemyState(
    x: int, y: int, velocityX: int, velocityY: int, health: int, isGrounded: bool,
    currentPlatform: Option<nat>, leftBound: int, rightBound: int)

  /** Enemy(x, y) with the field initialisers: moving right, full health, not
      grounded, no current platform, bounds 0 and 0. */
  function InitialEnemy(x0: int, y0: int): (s: EnemyState)
    ensures s.x == x0 && s.y == y0 && s.velocityX == MOVE_SPEED && s.velocityY == 0
    ensures s.health == MAX_HEALTH && !s.isGrounded && s.currentPlatform == None
    ensures s.leftBound == 0 && s.rightBound == 0
  {
    EnemyState(x0, y0, MOVE_SPEED, 0, MAX_HEALTH, false, None, 0, 0)
  }

  /** The rectangle update, resolveCollision, isHit and isOnPlatform build. */
  function BodyRect(s: EnemyState): (r: Rect)
    ensures r.x == s.x && r.y == s.y && r.w == WIDTH && r.h == HEIGHT && !IsEmpty(r)
  {
    Rect(s.x, s.y, WIDTH, HEIGHT)
  }

  /** isAlive: health above zero. */
  predicate Alive(s: EnemyState) {
    s.health > 0
  }

  /** The horizontal velocity is MOVE_SPEED one way or the other. */
  predicate Patrolling(s: EnemyState) {
    s.velocityX == MOVE_SPEED || s.velocityX == -MOVE_SPEED
  }

  /** The current platform, if any, is an entry of ps (the pointer is valid). */
  predicate RefersInto(s: EnemyState, ps: seq<Platform>) {
    s.currentPlatform.Some? ==> s.currentPlatform.value < |ps|
  }

  /** The bounds are those of the current platform. */
  predicate BoundsTrack(s: EnemyState, ps: seq<Platform>) {
    RefersInto(s, ps) &&
    (s.currentPlatform.Some? ==>
      s.leftBound == ps[s.currentPlatform.value].GetRect().x + BOUND_MARGIN &&
      s.rightBound == ps[s.currentPlatform.value].GetRect().x + ps[s.currentPlatform.value].GetRect().w - BOUND_MARGIN)
  }

  /** resolveCollision: a horizontal push-out reverses velocityX and leaves y
      and velocityY; a vertical one zeroes velocityY, and only the branch that
      puts the enemy below the platform sets isGrounded. Afterwards the body
      does not overlap the platform; health, platform and bounds are untouched. */
  function Resolved(s: EnemyState, p: Rect): (r: EnemyState)
    ensures !Overlaps(BodyRect(r), p)
    ensures r.health == s.health && r.currentPlatform == s.currentPlatform
    ensures r.leftBound == s.leftBound && r.rightBound == s.rightBound
    ensures PushesHorizontally(BodyRect(s), p) ==>
      r == s.(x := PushedX(BodyRect(s), p), velocityX := -s.velocityX)
    ensures !PushesHorizontally(BodyRect(s), p) ==>
      r.x == s.x && r.velocityX == s.velocityX && r.y == PushedY(BodyRect(s), p) && r.velocityY == 0 &&
      (r.isGrounded <==> s.isGrounded || s.y >= p.y)
  {
    var body := BodyRect(s);
    if PushesHorizontally(body, p) then
      s.(x := PushedX(body, p), velocityX := -s.velocityX)
    else if body.y < p.y then
      s.(y := PushedY(body, p), velocityY := 0)
    else
      s.(y := PushedY(body, p), velocityY := 0, isGrounded := true)
  }

  /** isOnPlatform: feet within 5 pixels of the platform's top and the body
      horizontally over it. */
  predicate OnPlatform(s: EnemyState, p: Rect) {
    var body := BodyRect(s);
    body.y + body.h <= p.y + 5 && body.y + body.h >= p.y - 5 &&
    body.x + body.w > p.x && body.x < p.x + p.w
  }

  /** A body that the vertical push-out puts on top of a platform is on it,
      yet resolveCollision does not set isGrounded for it. */
  lemma LandingOnTopIsNotGrounded(s: EnemyState, p: Rect)
    requires Overlaps(BodyRect(s), p) && !PushesHorizontally(BodyRect(s), p) && s.y < p.y
    ensures OnPlatform(Resolved(s, p), p)
    ensures Resolved(s, p).isGrounded == s.isGrounded
  {
  }

  /** updateMovementBounds: the bounds are the platform's edges moved inward
      by BOUND_MARGIN, so they are p.w - 10 apart; nothing else changes. */
  function WithBounds(s: EnemyState, p: Rect): (r: EnemyState)
    ensures r.leftBound == p.x + BOUND_MARGIN && r.rightBound == p.x + p.w - BOUND_MARGIN
    ensures r.rightBound - r.leftBound == p.w - 2 * BOUND_MARGIN
    ensures r.(leftBound := s.leftBound, rightBound := s.rightBound) == s
  {
    s.(leftBound := p.x + BOUND_MARGIN, rightBound := p.x + p.w - BOUND_MARGIN)
  }

  /** The state of update's collision loop: the enemy and newPlatform. */
  datatype Tracking = Tracking(body: EnemyState, newPlatform: Option<nat>)

  /** The loop's state at its start: not grounded, no platform found yet. */
  predicate Fresh(t: Tracking) {
    !t.body.isGrounded && t.newPlatform.None?
  }

  /** The first n iterations of update's collision loop. Every platform is
      tested against rect0, the rectangle taken before the loop, and a
      colliding one is resolved against the current position; isGrounded is
      never cleared inside the loop, so from the first grounded resolution on
      every colliding platform becomes newPlatform and the last one wins. */
  function Collide(t: Tracking, rect0: Rect, ps: seq<Platform>, n: nat): (r: Tracking)
    requires n <= |ps|
    ensures r.body.health == t.body.health && r.body.currentPlatform == t.body.currentPlatform
    ensures r.body.leftBound == t.body.leftBound && r.body.rightBound == t.body.rightBound
    ensures Patrolling(t.body) ==> Patrolling(r.body)
    ensures t.body.isGrounded ==> r.body.isGrounded
    ensures r.newPlatform == t.newPlatform || (r.newPlatform.Some? && r.newPlatform.value < n)
    ensures Fresh(t) ==> (r.newPlatform.Some? <==> r.body.isGrounded)
    ensures Fresh(t) && r.newPlatform.Some? ==>
      r.newPlatform.value < n && Overlaps(rect0, ps[r.newPlatform.value].GetRect()) &&
      forall k :: r.newPlatform.value < k < n ==> !Overlaps(rect0, ps[k].GetRect())
    decreases n
  {
    if n == 0 then t
    else
      var prev := Collide(t, rect0, ps, n - 1);
      if Overlaps(rect0, ps[n - 1].GetRect()) then
        var body := Resolved(prev.body, ps[n - 1].GetRect());
        Tracking(body, if body.isGrounded then Some(n - 1) else prev.newPlatform)
      else prev
  }

  /** Lines after the loop: the found platform replaces the current one when
      they differ, and only a found (non-null) platform recomputes the
      bounds; going airborne keeps the old bounds. */
  function Retarget(s: EnemyState, found: Option<nat>, ps: seq<Platform>): (r: EnemyState)
    requires found.Some? ==> found.value < |ps|
    ensures r.currentPlatform == found
    ensures found.Some? && found != s.currentPlatform ==>
      r == WithBounds(s, ps[found.value].GetRect()).(currentPlatform := found)
    ensures found.None? || found == s.currentPlatform ==> r == s.(currentPlatform := found)
  {
    if found != s.currentPlatform then
      var switched := s.(currentPlatform := found);
      if found.Some? then WithBounds(switched, ps[found.value].GetRect()) else switched
    else s
  }

  /** The 1 by 1 pixel probed for ground: one step ahead in x, one pixel
      below the top of the body. */
  function Probe(s: EnemyState): Rect {
    Rect(s.x + s.velocityX, s.y + 1, 1, 1)
  }

  /** The walk-off check: with a current platform whose rectangle the probe
      misses, velocityX is reversed and x goes back to oldX, its value before
      the horizontal move; otherwise nothing changes. */
  function WalkOff(s: EnemyState, oldX: int, ps: seq<Platform>): (r: EnemyState)
    requires RefersInto(s, ps)
    ensures r.velocityX == s.velocityX || r.velocityX == -s.velocityX
    ensures r.(x := s.x, velocityX := s.velocityX) == s
    ensures s.currentPlatform.Some? && !Overlaps(Probe(s), ps[s.currentPlatform.value].GetRect()) ==>
      r.velocityX == -s.velocityX && r.x == oldX
    ensures s.currentPlatform.None? || Overlaps(Probe(s), ps[s.currentPlatform.value].GetRect()) ==> r == s
  {
    if s.currentPlatform.Some? && !Overlaps(Probe(s), ps[s.currentPlatform.value].GetRect()) then
      s.(velocityX := -s.velocityX, x := oldX)
    else s
  }

  /** The probe looks one pixel below the body's top, not below its feet: it
      finds nothing on a platform at or below the feet, nor on one whose
      bottom is at or above the body's top, which is where the grounded
      branch of resolveCollision leaves the enemy. An enemy resting in either
      place against its current platform therefore turns back on every
      update. */
  lemma ProbeMissesPlatformUnderFeet(s: EnemyState, p: Rect)
    requires s.y + HEIGHT <= p.y || p.y + p.h <= s.y + 1
    ensures !Overlaps(Probe(s), p)
  {
  }

  /** Screen boundary check: x is brought into [0, SCREEN_WIDTH - WIDTH],
      and a clamped enemy heads back onto the screen. */
  function ScreenClamp(s: EnemyState): (r: EnemyState)
    ensures 0 <= r.x <= SCREEN_WIDTH - WIDTH
    ensures r.(x := s.x, velocityX := s.velocityX) == s
    ensures s.x < 0 ==> r.x == 0 && r.velocityX == MOVE_SPEED
    ensures s.x + WIDTH > SCREEN_WIDTH ==> r.x == SCREEN_WIDTH - WIDTH && r.velocityX == -MOVE_SPEED
    ensures 0 <= s.x && s.x + WIDTH <= SCREEN_WIDTH ==> r == s
  {
    if s.x < 0 then s.(x := 0, velocityX := MOVE_SPEED)
    else if s.x + WIDTH > SCREEN_WIDTH then s.(x := SCREEN_WIDTH - WIDTH, velocityX := -MOVE_SPEED)
    else s
  }

  /** Bound check: with a current platform, an enemy at or past a bound is
      put on it and heads back inward. When the bounds are at least WIDTH
      apart the body ends up between them. */
  function BoundClamp(s: EnemyState): (r: EnemyState)
    ensures r.(x := s.x, velocityX := s.velocityX) == s
    ensures s.currentPlatform.None? ==> r == s
    ensures s.currentPlatform.Some? && s.x <= s.leftBound ==>
      r.x == s.leftBound && r.velocityX == MOVE_SPEED
    ensures s.currentPlatform.Some? && s.x > s.leftBound && s.x + WIDTH >= s.rightBound ==>
      r.x == s.rightBound - WIDTH && r.velocityX == -MOVE_SPEED
    ensures s.currentPlatform.Some? && s.rightBound - s.leftBound >= WIDTH ==>
      s.leftBound <= r.x && r.x + WIDTH <= s.rightBound
    ensures s.currentPlatform.Some? && s.leftBound < s.x && s.x + WIDTH < s.rightBound ==> r == s
  {
    if s.currentPlatform.Some? then
      if s.x <= s.leftBound then s.(x := s.leftBound, velocityX := MOVE_SPEED)
      else if s.x + WIDTH >= s.rightBound then s.(x := s.rightBound - WIDTH, velocityX := -MOVE_SPEED)
      else s
    else s
  }

  /** The rectangle update captures before its collision loop: after the
      fall and the horizontal move. */
  function MovedRect(s: EnemyState, velocityYAfterGravity: int): Rect {
    Rect(s.x + s.velocityX, s.y + velocityYAfterGravity, WIDTH, HEIGHT)
  }

  /** update. It keeps the enemy's health, the speed MOVE_SPEED and bounds
      that belong to the current platform. The current platform is set
      exactly when the enemy ends grounded, and it is then the last platform
      in list order that the captured rectangle collides with. Bounds change
      only when a different platform becomes current. Without a platform x
      ends in [0, SCREEN_WIDTH - WIDTH]; with one whose bounds are at least
      WIDTH apart, the body ends between the bounds. */
  function UpdateStep(s: EnemyState, ps: seq<Platform>, velocityYAfterGravity: int): (r: EnemyState)
    requires RefersInto(s, ps)
    ensures RefersInto(r, ps)
    ensures r.health == s.health
    ensures Patrolling(s) ==> Patrolling(r)
    ensures BoundsTrack(s, ps) ==> BoundsTrack(r, ps)
    ensures r.currentPlatform.Some? <==> r.isGrounded
    ensures r.currentPlatform.Some? ==>
      Overlaps(MovedRect(s, velocityYAfterGravity), ps[r.currentPlatform.value].GetRect()) &&
      forall k :: r.currentPlatform.value < k < |ps| ==>
        !Overlaps(MovedRect(s, velocityYAfterGravity), ps[k].GetRect())
    ensures r.currentPlatform.Some? && r.currentPlatform != s.currentPlatform ==>
      r.leftBound == ps[r.currentPlatform.value].GetRect().x + BOUND_MARGIN &&
      r.rightBound == ps[r.currentPlatform.value].GetRect().x + ps[r.currentPlatform.value].GetRect().w - BOUND_MARGIN
    ensures r.currentPlatform.None? || r.currentPlatform == s.currentPlatform ==>
      r.leftBound == s.leftBound && r.rightBound == s.rightBound
    ensures r.currentPlatform.None? ==> 0 <= r.x <= SCREEN_WIDTH - WIDTH
    ensures r.currentPlatform.Some? && r.rightBound - r.leftBound >= WIDTH ==>
      r.leftBound <= r.x && r.x + WIDTH <= r.rightBound
  {
    var fallen := s.(velocityY := velocityYAfterGravity, y := s.y + velocityYAfterGravity);
    var moved := fallen.(x := fallen.x + fallen.velocityX, isGrounded := false);
    var loop := Collide(Tracking(moved, None), BodyRect(moved), ps, |ps|);
    var tracked := Retarget(loop.body, loop.newPlatform, ps);
    BoundClamp(ScreenClamp(WalkOff(tracked, s.x, ps)))
  }

  /** UpdateStep taken apart at the points where Enemy.Update calls its
      helper methods. */
  lemma UpdateStepUnfolds(s: EnemyState, ps: seq<Platform>, velocityYAfterGravity: int,
                          moved: EnemyState, collided: EnemyState, found: Option<nat>, tracked: EnemyState)
    requires RefersInto(s, ps)
    requires moved == s.(velocityY := velocityYAfterGravity, y := s.y + velocityYAfterGravity)
                       .(x := s.x + s.velocityX, isGrounded := false)
    requires Tracking(collided, found) == Collide(Tracking(moved, None), BodyRect(moved), ps, |ps|)
    requires tracked == Retarget(collided, found, ps)
    ensures RefersInto(tracked, ps)
    ensures UpdateStep(s, ps, velocityYAfterGravity) == BoundClamp(ScreenClamp(WalkOff(tracked, s.x, ps)))
  {
  }

  /** With bounds that track the current platform, an enemy on any platform
      of the level ends the update between its bounds, since every level
      platform is at least WIDTH + 10 wide. */
  lemma StaysWithinBoundsOnLevel(s: EnemyState, velocityYAfterGravity: int)
    requires BoundsTrack(s, Level())
    ensures var r := UpdateStep(s, Level(), velocityYAfterGravity);
      r.currentPlatform.Some? ==> r.leftBound <= r.x && r.x + WIDTH <= r.rightBound
  {
    var r := UpdateStep(s, Level(), velocityYAfterGravity);
    LevelPlatformsAreWide(WIDTH + 2 * BOUND_MARGIN);
    assert BoundsTrack(r, Level());
  }

  /** isHit: a hit is reported exactly when the attack rectangle intersects
      the body (SDL_HasIntersection), and it costs exactly one health; a miss
      changes nothing. There is no check that the enemy is alive. */
  function HitStep(s: EnemyState, attackRect: Rect): (res: (EnemyState, bool))
    ensures res.1 <==> HasIntersection(attackRect, BodyRect(s))
    ensures res.0 == if res.1 then s.(health := s.health - 1) else s
  {
    if HasIntersection(attackRect, BodyRect(s)) then (s.(health := s.health - 1), true) else (s, false)
  }

  /** Three hits with a rectangle that covers the body defeat a fresh enemy,
      and not fewer: isHit does not move the body, so the same rectangle
      keeps hitting. */
  lemma ThreeHitsDefeat(x0: int, y0: int, attackRect: Rect)
    requires HasIntersection(attackRect, Rect(x0, y0, WIDTH, HEIGHT))
    ensures var e0 := InitialEnemy(x0, y0);
      var h1 := HitStep(e0, attackRect);
      var h2 := HitStep(h1.0, attackRect);
      var h3 := HitStep(h2.0, attackRect);
      h1.1 && h2.1 && h3.1 && Alive(h2.0) && !Alive(h3.0)
  {
  }

  /** A hit on a defeated enemy still lowers its health: isHit has no guard. */
  lemma HitIgnoresDefeat(s: EnemyState, attackRect: Rect)
    requires !Alive(s) && HasIntersection(attackRect, BodyRect(s))
    ensures HitStep(s, attackRect).0.health == s.health - 1 < 0
  {
  }

  class Enemy {
    var x: int
    var y: int
    var velocityX: int
    var velocityY: int
    var health: int
    var isGrounded: bool
    var currentPlatform: Option<nat>
    var leftBound: int
    var rightBound: int

    function State(): EnemyState
      reads this
    {
      EnemyState(x, y, velocityX, velocityY, health, isGrounded, currentPlatform, leftBound, rightBound)
    }

    /** The invariant the enemy keeps against the platform list it is
        updated with. */
    ghost predicate Valid(platforms: seq<Platform>)
      reads this
    {
      Patrolling(State()) && BoundsTrack(State(), platforms)
    }

    constructor (x0: int, y0: int)
      ensures State() == InitialEnemy(x0, y0)
      ensures forall ps :: Valid(ps)
    {
      x, y := x0, y0;
      velocityX := MOVE_SPEED;
      velocityY := 0;
      health := MAX_HEALTH;
      isGrounded := false;
      currentPlatform := None;
      leftBound, rightBound := 0, 0;
    }

    /** isAlive: the object's answer is Alive of its state, the test that
        Game's update gates the enemy on. */
    function IsAlive(): (alive: bool)
      reads this
      ensures alive == Alive(State())
    {
      health > 0
    }

    predicate IsOnPlatform(platform: Platform)
      reads this
    {
      OnPlatform(State(), platform.GetRect())
    }

    method Update(platforms: seq<Platform>, velocityYAfterGravity: int)
      requires RefersInto(State(), platforms)
      modifies this
      ensures State() == UpdateStep(old(State()), platforms, velocityYAfterGravity)
      ensures old(Valid(platforms)) ==> Valid(platforms)
      ensures health == old(health)
    {
      ghost var s0 := State();
      velocityY := velocityYAfterGravity;
      y := y + velocityY;

      var oldX := x;
      x := x + velocityX;

      isGrounded := false;
      var enemyRect := Rect(x, y, WIDTH, HEIGHT);
      ghost var moved := State();
      assert moved == s0.(velocityY := velocityYAfterGravity, y := s0.y + velocityYAfterGravity)
                        .(x := s0.x + s0.velocityX, isGrounded := false);
      assert enemyRect == BodyRect(moved);
      var newPlatform := FindPlatform(platforms, enemyRect);

      ghost var collided := State();
      if newPlatform != currentPlatform {
        currentPlatform := newPlatform;
        if newPlatform.Some? {
          UpdateMovementBounds(platforms[newPlatform.value]);
        }
      }
      ghost var tracked := State();
      assert tracked == Retarget(collided, newPlatform, platforms);

      WalkOffCheck(platforms, oldX);
      ClampToScreen();
      ClampToBounds();
      UpdateStepUnfolds(s0, platforms, velocityYAfterGravity, moved, collided, newPlatform, tracked);
    }

    /** The collision loop of update: every platform the rectangle taken
        before the loop collides with is resolved against, and the last one
        whose resolution leaves the enemy grounded is returned. */
    method FindPlatform(platforms: seq<Platform>, enemyRect: Rect) returns (newPlatform: Option<nat>)
      modifies this
      ensures Tracking(State(), newPlatform) == Collide(Tracking(old(State()), None), enemyRect, platforms, |platforms|)
    {
      newPlatform := None;
      for i := 0 to |platforms|
        invariant Tracking(State(), newPlatform) == Collide(Tracking(old(State()), None), enemyRect, platforms, i)
      {
        if Overlaps(enemyRect, platforms[i].GetRect()) {
          ResolveCollision(platforms[i]);
          if isGrounded {
            newPlatform := Some(i);
          }
        }
      }
    }

    /** The walk-off check of update. */
    method WalkOffCheck(platforms: seq<Platform>, oldX: int)
      requires RefersInto(State(), platforms)
      modifies this
      ensures State() == WalkOff(old(State()), oldX, platforms)
    {
      if currentPlatform.Some? {
        var platformRect := platforms[currentPlatform.value].GetRect();
        var willFallOff := false;
        var nextStepRect := Rect(x + velocityX, y + 1, 1, 1);
        if !Overlaps(nextStepRect, platformRect) {
          willFallOff := true;
        }
        if willFallOff {
          velocityX := -velocityX;
          x := oldX;
        }
      }
    }

    /** The screen boundary check of update. */
    method ClampToScreen()
      modifies this
      ensures State() == ScreenClamp(old(State()))
    {
      if x < 0 {
        x := 0;
        velocityX := MOVE_SPEED;
      } else if x + WIDTH > SCREEN_WIDTH {
        x := SCREEN_WIDTH - WIDTH;
        velocityX := -MOVE_SPEED;
      }
    }

    /** The bound check of update. */
    method ClampToBounds()
      modifies this
      ensures State() == BoundClamp(old(State()))
    {
      if currentPlatform.Some? {
        if x <= leftBound {
          x := leftBound;
          velocityX := MOVE_SPEED;
        } else if x + WIDTH >= rightBound {
          x := rightBound - WIDTH;
          velocityX := -MOVE_SPEED;
        }
      }
    }

    method ResolveCollision(platform: Platform)
      modifies this
      ensures State() == Resolved(old(State()), platform.GetRect())
      ensures !Overlaps(BodyRect(State()), platform.GetRect())
    {
      var enemyRect := Rect(x, y, WIDTH, HEIGHT);
      var platformRect := platform.GetRect();
      var overlapX := Min(enemyRect.x + enemyRect.w - platformRect.x,
                          platformRect.x + platformRect.w - enemyRect.x);
      var overlapY := Min(enemyRect.y + enemyRect.h - platformRect.y,
                          platformRect.y + platformRect.h - enemyRect.y);
      if overlapX < overlapY {
        if enemyRect.x < platformRect.x {
          x := platformRect.x - enemyRect.w;
        } else {
          x := platformRect.x + platformRect.w;
        }
        velocityX := -velocityX;
      } else {
        if enemyRect.y < platformRect.y {
          y := platformRect.y - enemyRect.h;
          velocityY := 0;
        } else {
          y := platformRect.y + platformRect.h;
          velocityY := 0;
          isGrounded := true;
        }
      }
    }

    method UpdateMovementBounds(platform: Platform)
      modifies this
      ensures State() == WithBounds(old(State()), platform.GetRect())
    {
      var platformRect := platform.GetRect();
      leftBound := platformRect.x + BOUND_MARGIN;
      rightBound := platformRect.x + platformRect.w - BOUND_MARGIN;
    }

    method IsHit(attackRect: Rect) returns (hit: bool)
      modifies this
      ensures (State(), hit) == HitStep(old(State()), attackRect)
    {
      var enemyRect := Rect(x, y, WIDTH, HEIGHT);
      if HasIntersection(attackRect, enemyRect) {
        health := health - 1;
        return true;
      }
      return false;
    }
  }
}
