/** The session driver: the platform list that init builds, the player and
    the enemy, Game::update's combat gating, and the main loop's iterations
    (input handling, then update; drawing is not modelled).

    The gravity steps of both combatants are float arithmetic and are not
    modelled: every iteration is given the vertical velocities after
    gravity, as PlayerModel and EnemyModel take them. */
module GameModel {
  import opened Geometry
  import opened Platforms
  import opened PlayerAttack
  import P = PlayerModel
  import E = EnemyModel

  /** Where the player starts for a window of the given size. */
  function SpawnPlayer(width: nat, height: nat): (s: P.PlayerState)
    ensures s.velX == 0 && s.velY == 0 && !s.isJumping && s.isFacingRight && s.attack == Ready
    ensures 2 * s.x <= width < 2 * s.x + 2 && 2 * s.y <= height < 2 * s.y + 2
  {
    P.InitialPlayer(width / 2, height / 2)
  }

  /** init creates the enemy on the first ledge, at (150, 350). */
  const ENEMY_SPAWN_X := 150
  const ENEMY_SPAWN_Y := 350

  /** The part of Game's state that update changes. */
  datatype World = World(player: P.PlayerState, enemy: E.EnemyState)

  /** What one iteration of the main loop reads besides the world: the keys
      held, and the two vertical velocities after gravity. */
  datatype TickInput = TickInput(keys: P.Keys, playerVelY: int, enemyVelY: int)

  /** What Game keeps between updates: consistent player counters, an enemy
      that moves at MOVE_SPEED with bounds that belong to its current
      platform. */
  predicate WorldInv(w: World, ps: seq<Platform>) {
    P.PlayerInv(w.player) && E.Patrolling(w.enemy) && E.BoundsTrack(w.enemy, ps)
  }

  /** Game::update, with whether isHit reported a hit. The player is updated
      on every call. The enemy is updated and hit-tested only while alive,
      and hit-tested only while the player is attacking (after the player's
      update), once; so health falls by at most one, only on a tick whose
      post-update frame is in the hit window, and a defeated enemy is left
      exactly as it was. */
  function UpdateWorld(w: World, ps: seq<Platform>, playerVelY: int, enemyVelY: int): (r: (World, bool))
    requires E.RefersInto(w.enemy, ps)
    ensures r.0.player == P.UpdateStep(w.player, ps, playerVelY)
    ensures WorldInv(w, ps) ==> WorldInv(r.0, ps)
    ensures E.RefersInto(r.0.enemy, ps)
    ensures r.0.enemy.health == (if r.1 then w.enemy.health - 1 else w.enemy.health)
    ensures !E.Alive(w.enemy) ==> r.0.enemy == w.enemy && !r.1
    ensures E.Alive(w.enemy) ==>
      r.0.enemy.(health := w.enemy.health) == E.UpdateStep(w.enemy, ps, enemyVelY)
    ensures r.1 <==>
      E.Alive(w.enemy) && r.0.player.attack.isAttacking &&
      HasIntersection(P.AttackRect(r.0.player), E.BodyRect(E.UpdateStep(w.enemy, ps, enemyVelY)))
    ensures r.1 ==> HitWindow(r.0.player.attack)
  {
    var player := P.UpdateStep(w.player, ps, playerVelY);
    if E.Alive(w.enemy) then
      var enemy := E.UpdateStep(w.enemy, ps, enemyVelY);
      if player.attack.isAttacking then
        var hit := E.HitStep(enemy, P.AttackRect(player));
        (World(player, hit.0), hit.1)
      else
        (World(player, enemy), false)
    else
      (World(player, w.enemy), false)
  }

  /** A swing seen by the hit test is between frames 1 and 9: the frame
      advances in the player's update before the test, and a swing that
      reaches ATTACK_DURATION has already ended. A hit therefore lands only
      on frames 1 to 4. */
  lemma HitTestSeesAdvancedFrame(w: World, ps: seq<Platform>, playerVelY: int, enemyVelY: int)
    requires WorldInv(w, ps)
    ensures var r := UpdateWorld(w, ps, playerVelY, enemyVelY);
      (r.0.player.attack.isAttacking ==> 1 <= r.0.player.attack.attackFrame < ATTACK_DURATION) &&
      (r.1 ==> 1 <= r.0.player.attack.attackFrame < ATTACK_DURATION / 2)
  {
    var r := UpdateWorld(w, ps, playerVelY, enemyVelY);
    assert r.0.player.attack == Tick(w.player.attack);
  }

  /** One iteration of Game::run: handleEvents passes the keys to the
      player's handleInput, then update runs. The attack counters take one
      Frame of PlayerAttack. */
  function Iteration(w: World, ps: seq<Platform>, t: TickInput): (r: (World, bool))
    requires E.RefersInto(w.enemy, ps)
    ensures r.0.player.attack == Frame(w.player.attack, t.keys.z)
    ensures WorldInv(w, ps) ==> WorldInv(r.0, ps)
    ensures E.RefersInto(r.0.enemy, ps)
    ensures r.0.enemy.health == (if r.1 then w.enemy.health - 1 else w.enemy.health)
    ensures r.1 ==> E.Alive(w.enemy) && HitWindow(r.0.player.attack)
    ensures !E.Alive(w.enemy) ==> r.0.enemy == w.enemy
  {
    UpdateWorld(World(P.InputStep(w.player, t.keys), w.enemy), ps, t.playerVelY, t.enemyVelY)
  }

  /** The world after one iteration per entry of ts. */
  function RunWorld(w: World, ps: seq<Platform>, ts: seq<TickInput>): (r: World)
    requires E.RefersInto(w.enemy, ps)
    ensures E.RefersInto(r.enemy, ps)
    ensures r.player.attack == After(w.player.attack, ZKeys(ts))
    decreases |ts|
  {
    if ts == [] then w
    else
      assert ZKeys(ts)[0] == ts[0].keys.z && ZKeys(ts)[1..] == ZKeys(ts[1..]);
      RunWorld(Iteration(w, ps, ts[0]).0, ps, ts[1..])
  }

  /** Whether Z was held in each iteration. */
  function ZKeys(ts: seq<TickInput>): (zs: seq<bool>)
    ensures |zs| == |ts|
    ensures forall i :: 0 <= i < |ts| ==> zs[i] == ts[i].keys.z
  {
    seq(|ts|, i requires 0 <= i < |ts| => ts[i].keys.z)
  }

  /** The invariant holds after any number of iterations. */
  lemma {:induction false} RunKeepsInv(w: World, ps: seq<Platform>, ts: seq<TickInput>)
    requires WorldInv(w, ps)
    ensures WorldInv(RunWorld(w, ps, ts), ps)
    decreases |ts|
  {
    if ts != [] {
      RunKeepsInv(Iteration(w, ps, ts[0]).0, ps, ts[1..]);
    }
  }

  /** Over any run the enemy's health never rises, and it falls by no more
      than the number of iterations whose post-update attack frame is in the
      hit window, a count that depends on the Z key alone. */
  lemma {:induction false} HealthLossBoundedByHitTicks(w: World, ps: seq<Platform>, ts: seq<TickInput>)
    requires E.RefersInto(w.enemy, ps)
    ensures RunWorld(w, ps, ts).enemy.health <= w.enemy.health
    ensures RunWorld(w, ps, ts).enemy.health >= w.enemy.health - Hits(w.player.attack, ZKeys(ts))
    decreases |ts|
  {
    if ts != [] {
      var r := Iteration(w, ps, ts[0]);
      HealthLossBoundedByHitTicks(r.0, ps, ts[1..]);
      assert ZKeys(ts)[0] == ts[0].keys.z;
      assert ZKeys(ts)[1..] == ZKeys(ts[1..]);
    }
  }

  /** However the keys are pressed, the enemy loses at most 4 health in any
      ATTACK_COOLDOWN (20) consecutive iterations. */
  lemma AtMostFourHitsPerCooldown(w: World, ps: seq<Platform>, ts: seq<TickInput>)
    requires WorldInv(w, ps) && |ts| <= ATTACK_COOLDOWN
    ensures RunWorld(w, ps, ts).enemy.health >= w.enemy.health - HITS_PER_SWING
  {
    HealthLossBoundedByHitTicks(w, ps, ts);
    AtMostFourHitTicksPerCooldown(w.player.attack, ZKeys(ts));
  }

  /** Once the enemy is defeated nothing changes it any more: neither its
      health nor its position nor any other field. */
  lemma {:induction false} DefeatedEnemyIsFrozen(w: World, ps: seq<Platform>, ts: seq<TickInput>)
    requires E.RefersInto(w.enemy, ps) && !E.Alive(w.enemy)
    ensures RunWorld(w, ps, ts).enemy == w.enemy
    decreases |ts|
  {
    if ts != [] {
      DefeatedEnemyIsFrozen(Iteration(w, ps, ts[0]).0, ps, ts[1..]);
    }
  }

  class Game {
    var platforms: seq<Platform>
    var player: P.Player
    var enemy: E.Enemy

    function State(): World
      reads this, player, enemy
    {
      World(player.State(), enemy.State())
    }

    ghost predicate Valid()
      reads this, player, enemy
    {
      player.Valid() && enemy.Valid(platforms)
    }

    /** The simulation part of init: the four platforms in order, the player
        at the middle of the window, the enemy at its spawn point. */
    constructor (width: nat, height: nat)
      ensures platforms == Level()
      ensures State() == World(SpawnPlayer(width, height), E.InitialEnemy(ENEMY_SPAWN_X, ENEMY_SPAWN_Y))
      ensures Valid() && fresh(player) && fresh(enemy)
    {
      platforms := [];
      platforms := platforms + [NewPlatform(0, 550, 800, 50)];
      platforms := platforms + [NewPlatform(100, 400, 200, 20)];
      platforms := platforms + [NewPlatform(400, 300, 200, 20)];
      platforms := platforms + [NewPlatform(200, 200, 200, 20)];
      player := new P.Player(width / 2, height / 2);
      enemy := new E.Enemy(ENEMY_SPAWN_X, ENEMY_SPAWN_Y);
    }

    /** handleEvents, past the event polling: the keyboard state goes to the
        player's handleInput. */
    method HandleEvents(keys: P.Keys)
      modifies player
      ensures player.State() == P.InputStep(old(player.State()), keys)
      ensures old(Valid()) ==> Valid()
    {
      player.HandleInput(keys);
    }

    /** update. */
    method Update(playerVelY: int, enemyVelY: int)
      requires E.RefersInto(enemy.State(), platforms)
      modifies player, enemy
      ensures State() == UpdateWorld(old(State()), platforms, playerVelY, enemyVelY).0
      ensures old(Valid()) ==> Valid()
    {
      player.Update(platforms, playerVelY);
      if enemy.IsAlive() {
        enemy.Update(platforms, enemyVelY);
        if player.isAttacking {
          var hit := enemy.IsHit(player.GetAttackRect());
        }
      }
    }

    /** run, with the frames it goes through given up front: the quit event
        ends the sequence. Each iteration handles input, then updates. */
    method Run(ts: seq<TickInput>)
      requires E.RefersInto(enemy.State(), platforms)
      modifies player, enemy
      ensures State() == RunWorld(old(State()), platforms, ts)
      ensures old(Valid()) ==> Valid()
    {
      for i := 0 to |ts|
        invariant E.RefersInto(enemy.State(), platforms)
        invariant RunWorld(State(), platforms, ts[i..]) == RunWorld(old(State()), platforms, ts)
        invariant old(Valid()) ==> Valid()
      {
        assert ts[i..][1..] == ts[i + 1..];
        HandleEvents(ts[i].keys);
        Update(ts[i].playerVelY, ts[i].enemyVelY);
      }
    }
  }
}
