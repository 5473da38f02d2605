/** The player: keyboard-driven horizontal movement and jump, the swept
    collision pass of update against the platforms, the screen clamp, and the
    attack hitbox.

    Positions and velocities are integers. The gravity step of update
    (velY += 0.8) is float arithmetic and is not modelled: the caller supplies
    the vertical velocity after it (velYAfterGravity). */
module PlayerModel {
  import opened Geometry
  import opened Platforms
  import opened PlayerAttack

  const WIDTH := 50
  const HEIGHT := 50
  const MOVE_SPEED := 5
  const JUMP_FORCE := -15
  const ATTACK_RANGE := 60
  /** The largest x update allows: the screen width 800 minus WIDTH. */
  const RIGHT_LIMIT := 750

  /** The keys handleInput reads from SDL's keyboard state. */
  datatype Keys = Keys(left: bool, right: bool, space: bool, z: bool)

  /** Every field of Player, the attack counters grouped. */
  datatype PlayerState = PlayerState(
    x: int, y: int, velX: int, velY: int,
    isJumping: bool, isFacingRight: bool, attack: Attack)

  /** What the player keeps between calls: consistent attack counters and a
      horizontal velocity that is one of the three the input can set. */
  predicate PlayerInv(s: PlayerState) {
    Inv(s.attack) && s.velX in {-MOVE_SPEED, 0, MOVE_SPEED}
  }

  /** Player(x, y) with the field initialisers: at rest, facing right, not
      jumping, attack counters ready. */
  function InitialPlayer(x0: int, y0: int): (s: PlayerState)
    ensures PlayerInv(s) && s.attack == Ready
    ensures s.x == x0 && s.y == y0 && s.velX == 0 && s.velY == 0
    ensures !s.isJumping && s.isFacingRight
  {
    PlayerState(x0, y0, 0, 0, false, true, Ready)
  }

  /** getRect: the body at the player's position, of the fixed size. */
  function BodyRect(s: PlayerState): (r: Rect)
    ensures r.x == s.x && r.y == s.y && r.w == WIDTH && r.h == HEIGHT && !IsEmpty(r)
  {
    Rect(s.x, s.y, WIDTH, HEIGHT)
  }

  /** handleInput: Left wins over Right, facing changes only with a direction
      key, a jump needs the player not to be jumping, and the attack start is
      gated as in Start. Position is untouched. */
  function InputStep(s: PlayerState, k: Keys): (r: PlayerState)
    ensures PlayerInv(s) ==> PlayerInv(r)
    ensures r.velX in {-MOVE_SPEED, 0, MOVE_SPEED}
    ensures k.left ==> r.velX == -MOVE_SPEED && !r.isFacingRight
    ensures !k.left && k.right ==> r.velX == MOVE_SPEED && r.isFacingRight
    ensures !k.left && !k.right ==> r.velX == 0
    ensures r.isFacingRight != s.isFacingRight ==> k.left || k.right
    ensures k.space && !s.isJumping ==> r.velY == JUMP_FORCE && r.isJumping
    ensures (r.velY != s.velY || r.isJumping != s.isJumping) ==> k.space && !s.isJumping
    ensures r.attack == Start(s.attack, k.z)
    ensures r.x == s.x && r.y == s.y
  {
    var moved :=
      if k.left then s.(velX := -MOVE_SPEED, isFacingRight := false)
      else if k.right then s.(velX := MOVE_SPEED, isFacingRight := true)
      else s.(velX := 0);
    var jumped :=
      if k.space && !moved.isJumping then moved.(velY := JUMP_FORCE, isJumping := true) else moved;
    jumped.(attack := Start(jumped.attack, k.z))
  }

  /** getAttackRect: empty exactly from frame ATTACK_DURATION / 2 on, else an
      ATTACK_RANGE by HEIGHT box at the player's height, against the body's
      right edge when facing right and its left edge otherwise. It never
      intersects the player's own body, and an empty one intersects nothing. */
  function AttackRect(s: PlayerState): (r: Rect)
    ensures IsEmpty(r) <==> s.attack.attackFrame >= ATTACK_DURATION / 2
    ensures IsEmpty(r) ==> r == Rect(0, 0, 0, 0) && forall b :: !HasIntersection(r, b)
    ensures !IsEmpty(r) ==> r.w == ATTACK_RANGE && r.h == HEIGHT && r.y == s.y
    ensures !IsEmpty(r) && s.isFacingRight ==> r.x == s.x + WIDTH
    ensures !IsEmpty(r) && !s.isFacingRight ==> r.x + r.w == s.x
    ensures !HasIntersection(r, BodyRect(s))
  {
    if s.attack.attackFrame >= ATTACK_DURATION / 2 then
      Rect(0, 0, 0, 0)
    else
      Rect(if s.isFacingRight then s.x + WIDTH else s.x - ATTACK_RANGE, s.y, ATTACK_RANGE, HEIGHT)
  }

  /** resolveCollision: a horizontal push-out stops the player (velX = 0) and
      leaves y and velY; a vertical one zeroes velY, and only the branch that
      puts the player below the platform clears isJumping. Afterwards the body
      does not overlap the platform. */
  function Resolved(s: PlayerState, p: Rect): (r: PlayerState)
    ensures !Overlaps(BodyRect(r), p)
    ensures r.attack == s.attack && r.isFacingRight == s.isFacingRight
    ensures PushesHorizontally(BodyRect(s), p) ==>
      r == s.(x := PushedX(BodyRect(s), p), velX := 0)
    ensures !PushesHorizontally(BodyRect(s), p) ==>
      r.x == s.x && r.velX == s.velX && r.y == PushedY(BodyRect(s), p) && r.velY == 0 &&
      (r.isJumping <==> s.isJumping && s.y < p.y)
  {
    var body := BodyRect(s);
    if PushesHorizontally(body, p) then
      s.(x := PushedX(body, p), velX := 0)
    else if body.y < p.y then
      s.(y := PushedY(body, p), velY := 0)
    else
      s.(y := PushedY(body, p), velY := 0, isJumping := false)
  }

  function Abs(n: int): int {
    if n < 0 then -n else n
  }

  /** The path swept horizontally from oldX to the current x, at the current y. */
  function HorizontalPath(s: PlayerState, oldX: int): Rect {
    Rect(if s.velX > 0 then oldX else s.x, s.y, Abs(s.x - oldX) + WIDTH, HEIGHT)
  }

  /** The path swept downward from the old y to the current one, at the old x. */
  function FallPath(s: PlayerState, oldX: int, oldY: int): Rect {
    Rect(oldX, oldY, WIDTH, s.y - oldY + HEIGHT)
  }

  /** The path swept upward from the current y to the old one, at the old x. */
  function RisePath(s: PlayerState, oldX: int, oldY: int): Rect {
    Rect(oldX, s.y, WIDTH, oldY - s.y + HEIGHT)
  }

  /** The vertical half of one iteration of update's platform loop. Falling:
      the player lands on top of the platform exactly when the path from the
      old to the new y meets it. Rising: it stops just below the platform
      exactly when the path meets it. Otherwise nothing changes. */
  function VerticalSweep(s: PlayerState, oldX: int, oldY: int, p: Rect): (r: PlayerState)
    ensures r.x == s.x && r.velX == s.velX && r.attack == s.attack && r.isFacingRight == s.isFacingRight
    ensures r.isJumping ==> s.isJumping
    ensures s.velY == 0 ==> r == s
    ensures s.isJumping && !r.isJumping ==> r.velY == 0 && r.y + HEIGHT == p.y
    ensures s.velY > 0 && Overlaps(FallPath(s, oldX, oldY), p) ==>
      r.y == p.y - HEIGHT && r.velY == 0 && !r.isJumping
    ensures s.velY < 0 && Overlaps(RisePath(s, oldX, oldY), p) ==>
      r.y == p.y + p.h && r.velY == 0 && r.isJumping == s.isJumping
    ensures (!(s.velY > 0 && Overlaps(FallPath(s, oldX, oldY), p)) &&
             !(s.velY < 0 && Overlaps(RisePath(s, oldX, oldY), p))) ==> r == s
  {
    if s.velY > 0 then
      if Overlaps(FallPath(s, oldX, oldY), p) then
        s.(y := p.y - HEIGHT, velY := 0, isJumping := false)
      else s
    else if s.velY < 0 then
      if Overlaps(RisePath(s, oldX, oldY), p) then
        s.(y := p.y + p.h, velY := 0)
      else s
    else s
  }

  /** The horizontal half: moving sideways, the player stops against the
      side it moves towards, with velX 0, exactly when the horizontal path
      meets the platform; otherwise nothing changes. */
  function HorizontalSweep(s: PlayerState, oldX: int, p: Rect): (r: PlayerState)
    ensures r.y == s.y && r.velY == s.velY && r.isJumping == s.isJumping
    ensures r.attack == s.attack && r.isFacingRight == s.isFacingRight
    ensures r.velX == s.velX || r.velX == 0
    ensures s.velX != 0 && Overlaps(HorizontalPath(s, oldX), p) ==>
      r.velX == 0 && r.x == (if s.velX > 0 then p.x - WIDTH else p.x + p.w)
    ensures !(s.velX != 0 && Overlaps(HorizontalPath(s, oldX), p)) ==> r == s
  {
    if s.velX != 0 && Overlaps(HorizontalPath(s, oldX), p) then
      s.(x := if s.velX > 0 then p.x - WIDTH else p.x + p.w, velX := 0)
    else s
  }

  /** One iteration of update's platform loop: the vertical check, then the
      horizontal one at the possibly corrected y. */
  function SweepStep(s: PlayerState, oldX: int, oldY: int, p: Rect): (r: PlayerState)
    ensures r.attack == s.attack && r.isFacingRight == s.isFacingRight
    ensures r.velX == s.velX || r.velX == 0
    ensures r.isJumping ==> s.isJumping
    ensures s.velY == 0 ==> r.y == s.y && r.velY == 0 && r.isJumping == s.isJumping
    ensures s.isJumping && !r.isJumping ==> r.velY == 0 && r.y + HEIGHT == p.y
  {
    HorizontalSweep(VerticalSweep(s, oldX, oldY, p), oldX, p)
  }

  /** The first n iterations of update's platform loop, in list order. Once
      the player has landed (isJumping cleared) velY is 0 and its y stays on
      top of a platform it swept through. */
  function Sweep(s: PlayerState, oldX: int, oldY: int, ps: seq<Platform>, n: nat): (r: PlayerState)
    requires n <= |ps|
    ensures r.attack == s.attack && r.isFacingRight == s.isFacingRight
    ensures r.velX == s.velX || r.velX == 0
    ensures s.isJumping && !r.isJumping ==>
      r.velY == 0 && exists i :: 0 <= i < n && r.y + HEIGHT == ps[i].GetRect().y
    decreases n
  {
    if n == 0 then s
    else SweepStep(Sweep(s, oldX, oldY, ps, n - 1), oldX, oldY, ps[n - 1].GetRect())
  }

  /** While the player has not landed during the loop, a falling player's y
      and velY are those it entered the loop with: nothing but a landing
      moves it vertically. */
  lemma {:induction false} StillFallingKeepsHeight(s: PlayerState, oldX: int, oldY: int, ps: seq<Platform>, n: nat)
    requires n <= |ps| && s.velY > 0
    ensures var r := Sweep(s, oldX, oldY, ps, n);
      r.isJumping ==> r.y == s.y && r.velY == s.velY
    decreases n
  {
    if n > 0 {
      StillFallingKeepsHeight(s, oldX, oldY, ps, n - 1);
    }
  }

  /** The swept pass does not let a falling player through: if its path from
      the old to the new y meets any of the first n platforms, it has landed
      after them. */
  lemma {:induction false} FallingPathLands(s: PlayerState, oldX: int, oldY: int, ps: seq<Platform>, n: nat)
    requires n <= |ps| && s.velY > 0 && s.isJumping
    requires exists i :: 0 <= i < n && Overlaps(FallPath(s, oldX, oldY), ps[i].GetRect())
    ensures !Sweep(s, oldX, oldY, ps, n).isJumping
    decreases n
  {
    var prev := Sweep(s, oldX, oldY, ps, n - 1);
    if prev.isJumping {
      StillFallingKeepsHeight(s, oldX, oldY, ps, n - 1);
      assert FallPath(prev, oldX, oldY) == FallPath(s, oldX, oldY);
      if !Overlaps(FallPath(s, oldX, oldY), ps[n - 1].GetRect()) {
        FallingPathLands(s, oldX, oldY, ps, n - 1);
      }
    }
  }

  /** Platform i is the first of the list, in list order, that the path meets. */
  predicate FirstMet(path: Rect, ps: seq<Platform>, i: int) {
    0 <= i < |ps| && Overlaps(path, ps[i].GetRect()) &&
    forall k :: 0 <= k < i ==> !Overlaps(path, ps[k].GetRect())
  }

  /** Which platform a falling player lands on is decided by list order: the
      first platform whose fall path it meets, since the landing zeroes velY
      and every later iteration skips the vertical check. A nearer platform
      later in the list does not win. */
  lemma {:induction false} FirstFallWins(s: PlayerState, oldX: int, oldY: int, ps: seq<Platform>, n: nat)
    requires n <= |ps| && s.velY > 0 && s.isJumping
    requires !Sweep(s, oldX, oldY, ps, n).isJumping
    ensures var r := Sweep(s, oldX, oldY, ps, n);
      r.velY == 0 &&
      exists i :: 0 <= i < n && FirstMet(FallPath(s, oldX, oldY), ps, i) && r.y + HEIGHT == ps[i].GetRect().y
    decreases n
  {
    if n > 0 {
      var path := FallPath(s, oldX, oldY);
      var prev := Sweep(s, oldX, oldY, ps, n - 1);
      if prev.isJumping {
        StillFallingKeepsHeight(s, oldX, oldY, ps, n - 1);
        assert FallPath(prev, oldX, oldY) == path;
        forall k | 0 <= k < n - 1
          ensures !Overlaps(path, ps[k].GetRect())
        {
          if Overlaps(path, ps[k].GetRect()) {
            FallingPathLands(s, oldX, oldY, ps, n - 1);
          }
        }
        assert FirstMet(path, ps, n - 1);
      } else {
        FirstFallWins(s, oldX, oldY, ps, n - 1);
      }
    }
  }

  /** update: move by the velocities, advance the attack counters, sweep
      against every platform, clamp x to [0, RIGHT_LIMIT]. A player that ends
      the update not jumping has velY 0 and stands on top of a platform;
      velX is kept or zeroed by a side hit. */
  function UpdateStep(s: PlayerState, ps: seq<Platform>, velYAfterGravity: int): (r: PlayerState)
    ensures 0 <= r.x <= RIGHT_LIMIT
    ensures r.attack == Tick(s.attack)
    ensures r.isFacingRight == s.isFacingRight
    ensures r.velX == s.velX || r.velX == 0
    ensures PlayerInv(s) ==> PlayerInv(r)
    ensures !r.isJumping ==>
      r.velY == 0 && exists i :: 0 <= i < |ps| && r.y + HEIGHT == ps[i].GetRect().y
  {
    var moved := s.(x := s.x + s.velX, y := s.y + velYAfterGravity, velY := velYAfterGravity,
                    attack := Tick(s.attack), isJumping := true);
    var swept := Sweep(moved, s.x, s.y, ps, |ps|);
    swept.(x := if swept.x < 0 then 0 else if swept.x > RIGHT_LIMIT then RIGHT_LIMIT else swept.x)
  }

  /** UpdateStep taken apart at the points where Player.Update calls its
      helper methods. */
  lemma UpdateStepUnfolds(s: PlayerState, ps: seq<Platform>, velYAfterGravity: int,
                          moved: PlayerState, swept: PlayerState)
    requires moved == s.(x := s.x + s.velX, y := s.y + velYAfterGravity, velY := velYAfterGravity,
                         attack := Tick(s.attack), isJumping := true)
    requires swept == Sweep(moved, s.x, s.y, ps, |ps|)
    ensures UpdateStep(s, ps, velYAfterGravity) ==
      swept.(x := if swept.x < 0 then 0 else if swept.x > RIGHT_LIMIT then RIGHT_LIMIT else swept.x)
  {
  }

  /** A falling player whose path from its old position down by the new
      vertical velocity meets any platform of the list ends the update
      standing, with velY 0, on the first platform in list order that the
      path meets. */
  lemma FallingPlayerLands(s: PlayerState, ps: seq<Platform>, velYAfterGravity: int)
    requires velYAfterGravity > 0
    requires exists i ::
      0 <= i < |ps| && Overlaps(Rect(s.x, s.y, WIDTH, velYAfterGravity + HEIGHT), ps[i].GetRect())
    ensures var r := UpdateStep(s, ps, velYAfterGravity);
      !r.isJumping && r.velY == 0 &&
      exists i :: FirstMet(Rect(s.x, s.y, WIDTH, velYAfterGravity + HEIGHT), ps, i) &&
                  r.y + HEIGHT == ps[i].GetRect().y
  {
    var moved := s.(x := s.x + s.velX, y := s.y + velYAfterGravity, velY := velYAfterGravity,
                    attack := Tick(s.attack), isJumping := true);
    assert FallPath(moved, s.x, s.y) == Rect(s.x, s.y, WIDTH, velYAfterGravity + HEIGHT);
    FallingPathLands(moved, s.x, s.y, ps, |ps|);
    FirstFallWins(moved, s.x, s.y, ps, |ps|);
  }

  class Player {
    var x: int
    var y: int
    var velX: int
    var velY: int
    var isJumping: bool
    var isFacingRight: bool
    var isAttacking: bool
    var attackFrame: int
    var attackCooldownTimer: int
    var canAttack: bool

    function State(): PlayerState
      reads this
    {
      PlayerState(x, y, velX, velY, isJumping, isFacingRight,
                  Attack(isAttacking, attackFrame, attackCooldownTimer, canAttack))
    }

    ghost predicate Valid()
      reads this
    {
      PlayerInv(State())
    }

    constructor (x0: int, y0: int)
      ensures State() == InitialPlayer(x0, y0)
      ensures Valid()
    {
      x, y := x0, y0;
      velX, velY := 0, 0;
      isJumping, isFacingRight := false, true;
      isAttacking := false;
      attackFrame := 0;
      attackCooldownTimer := 0;
      canAttack := true;
    }

    /** getRect: the 50 by 50 body at the player's position. */
    function GetRect(): (r: Rect)
      reads this
      ensures r.x == x && r.y == y && r.w == WIDTH && r.h == HEIGHT && !IsEmpty(r)
    {
      BodyRect(State())
    }

    /** getAttackRect: empty from frame ATTACK_DURATION / 2 on, and never
        intersecting the player's own body. */
    function GetAttackRect(): (r: Rect)
      reads this
      ensures IsEmpty(r) <==> attackFrame >= ATTACK_DURATION / 2
      ensures !HasIntersection(r, GetRect())
    {
      AttackRect(State())
    }

    method HandleInput(k: Keys)
      modifies this
      ensures State() == InputStep(old(State()), k)
      ensures old(Valid()) ==> Valid()
    {
      if k.left {
        velX := -MOVE_SPEED;
        isFacingRight := false;
      } else if k.right {
        velX := MOVE_SPEED;
        isFacingRight := true;
      } else {
        velX := 0;
      }
      if k.space && !isJumping {
        velY := JUMP_FORCE;
        isJumping := true;
      }
      if k.z && canAttack && !isAttacking {
        isAttacking := true;
        attackFrame := 0;
        canAttack := false;
        attackCooldownTimer := ATTACK_COOLDOWN;
      }
    }

    method Update(platforms: seq<Platform>, velYAfterGravity: int)
      modifies this
      ensures State() == UpdateStep(old(State()), platforms, velYAfterGravity)
      ensures old(Valid()) ==> Valid()
      ensures 0 <= x <= RIGHT_LIMIT
    {
      var oldX := x;
      var oldY := y;
      ghost var s0 := State();
      velY := velYAfterGravity;
      x := x + velX;
      y := y + velY;

      TickAttack();

      isJumping := true;
      ghost var moved := State();
      assert moved == s0.(x := s0.x + s0.velX, y := s0.y + velYAfterGravity, velY := velYAfterGravity,
                          attack := Tick(s0.attack), isJumping := true);
      SweepAll(platforms, oldX, oldY);
      ghost var swept := State();

      if x < 0 {
        x := 0;
      }
      if x > RIGHT_LIMIT {
        x := RIGHT_LIMIT;
      }
      assert State() == swept.(x := if swept.x < 0 then 0 else if swept.x > RIGHT_LIMIT then RIGHT_LIMIT else swept.x);
      UpdateStepUnfolds(s0, platforms, velYAfterGravity, moved, swept);
    }

    /** update's platform loop: each platform in list order, checked against
        the paths from (oldX, oldY). */
    method SweepAll(platforms: seq<Platform>, oldX: int, oldY: int)
      modifies this
      ensures State() == Sweep(old(State()), oldX, oldY, platforms, |platforms|)
    {
      for i := 0 to |platforms|
        invariant State() == Sweep(old(State()), oldX, oldY, platforms, i)
      {
        SweepAgainst(platforms[i].GetRect(), oldX, oldY);
      }
    }

    /** The attack-frame and cooldown counting of update. */
    method TickAttack()
      modifies this
      ensures State() == old(State()).(attack := Tick(old(State()).attack))
    {
      if isAttacking {
        attackFrame := attackFrame + 1;
        if attackFrame >= ATTACK_DURATION {
          isAttacking := false;
          attackFrame := 0;
        }
      }
      if !canAttack {
        attackCooldownTimer := attackCooldownTimer - 1;
        if attackCooldownTimer <= 0 {
          canAttack := true;
        }
      }
    }

    /** The body of update's platform loop for one platform. */
    method SweepAgainst(platformRect: Rect, oldX: int, oldY: int)
      modifies this
      ensures State() == SweepStep(old(State()), oldX, oldY, platformRect)
    {
      if velY > 0 {
        var pathRect := Rect(oldX, oldY, WIDTH, y - oldY + HEIGHT);
        if Overlaps(pathRect, platformRect) {
          y := platformRect.y - HEIGHT;
          velY := 0;
          isJumping := false;
        }
      } else if velY < 0 {
        var pathRect := Rect(oldX, y, WIDTH, oldY - y + HEIGHT);
        if Overlaps(pathRect, platformRect) {
          y := platformRect.y + platformRect.h;
          velY := 0;
        }
      }
      assert State() == VerticalSweep(old(State()), oldX, oldY, platformRect);
      if velX != 0 {
        var pathRect := Rect(if velX > 0 then oldX else x, y, Abs(x - oldX) + WIDTH, HEIGHT);
        if Overlaps(pathRect, platformRect) {
          if velX > 0 {
            x := platformRect.x - WIDTH;
          } else {
            x := platformRect.x + platformRect.w;
          }
          velX := 0;
        }
      }
    }

    method ResolveCollision(platform: Platform)
      modifies this
      ensures State() == Resolved(old(State()), platform.GetRect())
      ensures !Overlaps(GetRect(), platform.GetRect())
    {
      var playerRect := GetRect();
      var platformRect := platform.GetRect();
      var overlapX := Min(playerRect.x + playerRect.w - platformRect.x,
                          platformRect.x + platformRect.w - playerRect.x);
      var overlapY := Min(playerRect.y + playerRect.h - platformRect.y,
                          platformRect.y + platformRect.h - playerRect.y);
      if overlapX < overlapY {
        if playerRect.x < platformRect.x {
          x := platformRect.x - playerRect.w;
        } else {
          x := platformRect.x + platformRect.w;
        }
        velX := 0;
      } else {
        if playerRect.y < platformRect.y {
          y := platformRect.y - playerRect.h;
          velY := 0;
        } else {
          y := platformRect.y + platformRect.h;
          velY := 0;
          isJumping := false;
        }
      }
    }
  }
}
