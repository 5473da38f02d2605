/** The player's attack and cooldown counters: the gated start in
    handleInput, the per-update frame and cooldown counting, the hit window,
    and how many ticks of a run can land a hit. */
module PlayerAttack {
  import opened Geometry

  const ATTACK_DURATION := 10
  const ATTACK_COOLDOWN := 20
  /** Ticks per swing whose post-update frame is in the hit window (frames 1 to 4). */
  const HITS_PER_SWING := ATTACK_DURATION / 2 - 1

  /** The four attack fields of Player. */
  datatype Attack = Attack(isAttacking: bool, attackFrame: int, cooldownTimer: int, canAttack: bool)

  /** The field initialisers: not attacking, frame 0, timer 0, allowed to attack. */
  const Ready := Attack(false, 0, 0, true)

  /** What the counters keep between calls: the frame stays below
      ATTACK_DURATION, the timer within [0, ATTACK_COOLDOWN] and is 0 exactly
      when an attack is allowed; while attacking, frame and timer add up to
      ATTACK_COOLDOWN (both started together and move by one per update);
      otherwise the frame is 0 and at most ATTACK_COOLDOWN - ATTACK_DURATION
      ticks of cooldown are left. */
  predicate Inv(a: Attack) {
    0 <= a.attackFrame < ATTACK_DURATION &&
    0 <= a.cooldownTimer <= ATTACK_COOLDOWN &&
    (a.canAttack <==> a.cooldownTimer == 0) &&
    (a.isAttacking ==> a.attackFrame + a.cooldownTimer == ATTACK_COOLDOWN) &&
    (!a.isAttacking ==> a.attackFrame == 0 && a.cooldownTimer <= ATTACK_COOLDOWN - ATTACK_DURATION)
  }

  lemma ReadyIsValid()
    ensures Inv(Ready)
  {
  }

  /** Since ATTACK_COOLDOWN > ATTACK_DURATION, no new attack can be allowed
      while one is running. */
  lemma AttackingIsCoolingDown(a: Attack)
    requires Inv(a) && a.isAttacking
    ensures !a.canAttack && a.cooldownTimer > ATTACK_COOLDOWN - ATTACK_DURATION
  {
  }

  /** handleInput's attack part: Z held, allowed and not already attacking
      starts a swing at frame 0 with the full cooldown; in every other case
      all four fields stay as they are. */
  function Start(a: Attack, zHeld: bool): (r: Attack)
    ensures Inv(a) ==> Inv(r)
    ensures r != a ==> zHeld && a.canAttack && !a.isAttacking
    ensures zHeld && a.canAttack && !a.isAttacking ==>
      r.isAttacking && r.attackFrame == 0 && !r.canAttack && r.cooldownTimer == ATTACK_COOLDOWN
  {
    if zHeld && a.canAttack && !a.isAttacking then
      Attack(true, 0, ATTACK_COOLDOWN, false)
    else
      a
  }

  /** update's attack part: a running swing advances one frame and ends,
      back at frame 0, exactly when the frame reaches ATTACK_DURATION; the
      cooldown is counted down only while attacks are not allowed and allows
      them again once it reaches 0. */
  function Tick(a: Attack): (r: Attack)
    ensures Inv(a) ==> Inv(r)
    ensures !a.isAttacking ==> !r.isAttacking
    ensures a.isAttacking ==> (r.isAttacking <==> a.attackFrame + 1 < ATTACK_DURATION)
    ensures a.isAttacking && r.isAttacking ==> r.attackFrame == a.attackFrame + 1
    ensures !r.isAttacking ==> r.attackFrame == (if a.isAttacking then 0 else a.attackFrame)
    ensures a.canAttack ==> r.cooldownTimer == a.cooldownTimer && r.canAttack
    ensures !a.canAttack ==> r.cooldownTimer == a.cooldownTimer - 1 && (r.canAttack <==> r.cooldownTimer <= 0)
  {
    var a1 :=
      if !a.isAttacking then a
      else if a.attackFrame + 1 >= ATTACK_DURATION then a.(isAttacking := false, attackFrame := 0)
      else a.(attackFrame := a.attackFrame + 1);
    if a1.canAttack then a1
    else a1.(cooldownTimer := a1.cooldownTimer - 1, canAttack := a1.cooldownTimer - 1 <= 0)
  }

  /** One game tick of the counters: handleInput, then update. */
  function Frame(a: Attack, zHeld: bool): Attack {
    Tick(Start(a, zHeld))
  }

  /** After an update the hit test of Game::update gets a non-empty attack
      rectangle exactly when this holds: attacking, in the first half of the swing. */
  predicate HitWindow(a: Attack) {
    a.isAttacking && a.attackFrame < ATTACK_DURATION / 2
  }

  /** The counters after one tick per entry of zs (whether Z was held). */
  function After(a: Attack, zs: seq<bool>): Attack
    decreases |zs|
  {
    if zs == [] then a else After(Frame(a, zs[0]), zs[1..])
  }

  /** How many of those ticks end inside the hit window. */
  function Hits(a: Attack, zs: seq<bool>): nat
    decreases |zs|
  {
    if zs == [] then 0
    else (if HitWindow(Frame(a, zs[0])) then 1 else 0) + Hits(Frame(a, zs[0]), zs[1..])
  }

  lemma {:induction false} InvAfter(a: Attack, zs: seq<bool>)
    requires Inv(a)
    ensures Inv(After(a, zs))
    decreases |zs|
  {
    if zs != [] {
      InvAfter(Frame(a, zs[0]), zs[1..]);
    }
  }

  /** Hit ticks still to come in the running swing. */
  function Remaining(a: Attack): nat {
    if a.isAttacking && a.attackFrame < HITS_PER_SWING then HITS_PER_SWING - a.attackFrame else 0
  }

  /** An upper bound on the hit ticks of the next n ticks: what is left of the
      current swing, plus one new swing's worth once the cooldown has run out. */
  function Budget(a: Attack, n: nat): int {
    Min(Remaining(a), n) + Min(HITS_PER_SWING, if n > a.cooldownTimer then n - a.cooldownTimer else 0)
  }

  lemma {:induction false} HitsWithinBudget(a: Attack, zs: seq<bool>)
    requires Inv(a) && |zs| <= ATTACK_COOLDOWN
    ensures Hits(a, zs) <= Budget(a, |zs|)
    decreases |zs|
  {
    if zs != [] {
      var a' := Frame(a, zs[0]);
      HitsWithinBudget(a', zs[1..]);
      assert Hits(a, zs) == (if HitWindow(a') then 1 else 0) + Hits(a', zs[1..]);
      if a.isAttacking {
        assert a' == Tick(a);
      } else if !a.canAttack {
        assert a' == Tick(a);
        assert !HitWindow(a') && Remaining(a') == 0;
      } else if zs[0] {
        assert a' == Attack(true, 1, ATTACK_COOLDOWN - 1, false);
      } else {
        assert a' == a;
      }
    }
  }

  /** However Z is pressed, at most HITS_PER_SWING (4) of any ATTACK_COOLDOWN
      (20) consecutive ticks end inside the hit window: a swing has only
      frames 1 to 4 in it after an update, and the cooldown keeps the next
      swing from starting before 20 ticks have passed. */
  lemma AtMostFourHitTicksPerCooldown(a: Attack, zs: seq<bool>)
    requires Inv(a) && |zs| <= ATTACK_COOLDOWN
    ensures Hits(a, zs) <= HITS_PER_SWING
  {
    HitsWithinBudget(a, zs);
  }

  /** The bound is reached: a swing started from the ready state has four
      consecutive hit ticks. */
  lemma {:induction false} SwingHasFourHitTicks(zs: seq<bool>)
    requires |zs| == HITS_PER_SWING && zs[0]
    ensures Hits(Ready, zs) == HITS_PER_SWING
  {
    var a1 := Frame(Ready, zs[0]);
    var a2 := Frame(a1, zs[1]);
    var a3 := Frame(a2, zs[2]);
    var a4 := Frame(a3, zs[3]);
    assert a1 == Attack(true, 1, 19, false);
    assert a2 == Attack(true, 2, 18, false);
    assert a3 == Attack(true, 3, 17, false);
    assert a4 == Attack(true, 4, 16, false);
    assert zs[1..][1..][1..][1..] == [];
    assert Hits(a4, zs[1..][1..][1..][1..]) == 0;
    assert Hits(a3, zs[1..][1..][1..]) == 1;
    assert Hits(a2, zs[1..][1..]) == 2;
    assert Hits(a1, zs[1..]) == 3;
  }
}
