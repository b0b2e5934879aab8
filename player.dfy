// The player: input to velocity with jump buffering, coyote time and a
// variable jump height; three attacks with cooldowns and their hitboxes;
// damage with an invincibility window; per-frame timers; and the state
// chosen after collision by a fixed priority.

module Players {
  import opened Wrappers
  import opened MathUtil
  import opened Entities
  import opened Physics
  import opened Input
  import opened PowerUps
  import opened Collision

  datatype PlayerState = Idle | Running | Jumping | Falling | Attacking | Hurt | Dead

  datatype AttackType = Punch | Kick | JumpKick

  const ATTACK_DURATION: int := 10
  const ATTACK_COOLDOWN_MAX: int := 20
  const INVINCIBILITY_DURATION: int := 90
  const HURT_FRAMES: int := 8

  /** `_attackDamages[type]`: punch 25, kick 30, jump kick 35. */
  function AttackDamageOf(t: AttackType): (d: int)
    ensures 25 <= d <= 35
    ensures d == 25 <==> t == Punch
    ensures d == 35 <==> t == JumpKick
  {
    match t
    case Punch => 25
    case Kick => 30
    case JumpKick => 35
  }

  /** A positive frame timer counts down by one; otherwise it stays. */
  function Dec(t: int): (r: int)
    ensures t > 0 ==> r == t - 1
    ensures t <= 0 ==> r == t
  {
    if t > 0 then t - 1 else t
  }

  // ---- the keys the player reads ----

  function LeftHeld(i: InputState): bool reads i { i.IsDown("ArrowLeft") || i.IsDown("KeyA") }
  function RightHeld(i: InputState): bool reads i { i.IsDown("ArrowRight") || i.IsDown("KeyD") }
  function JumpHeldNow(i: InputState): bool reads i { i.IsDown("Space") || i.IsDown("ArrowUp") || i.IsDown("KeyW") }
  function JumpPressed(i: InputState): bool reads i
  {
    i.WasPressed("Space") || i.WasPressed("ArrowUp") || i.WasPressed("KeyW")
  }
  function PunchPressed(i: InputState): bool reads i { i.WasPressed("KeyX") || i.WasPressed("KeyZ") }
  function KickPressed(i: InputState): bool reads i { i.WasPressed("KeyC") }

  /** The controls `handleInput` samples, read once per frame. */
  datatype Keys = Keys(left: bool, right: bool, jumpPressed: bool, jumpHeld: bool,
                       punch: bool, kick: bool)

  function KeysOf(i: InputState): (k: Keys)
    reads i
    ensures k.jumpPressed ==> i.WasPressed("Space") || i.WasPressed("ArrowUp") || i.WasPressed("KeyW")
  {
    Keys(LeftHeld(i), RightHeld(i), JumpPressed(i), JumpHeldNow(i), PunchPressed(i), KickPressed(i))
  }

  /**
   * The attack hitbox for a body at (x, y) of the given width, facing
   * `facing`, with the power-up scale applied to the size (rounded as
   * `Math.round` does). Punch and kick sit just outside the leading edge;
   * the jump kick overlaps the body by 4px.
   */
  function Hitbox(t: AttackType, x: real, y: real, width: real, facing: int, scale: real): (r: Rect)
    ensures facing == 1 && t != JumpKick ==> r.x == x + width
    ensures facing == 1 && t == JumpKick ==> r.x == x + width - 4.0
    ensures facing != 1 && t != JumpKick ==> r.x + r.width == x
    ensures facing != 1 && t == JumpKick ==> r.x + r.width == x + 4.0
    ensures r.y == y + (match t case Punch => 8.0 case Kick => 24.0 case JumpKick => 12.0)
    ensures var base := match t case Punch => 24.0 case Kick => 28.0 case JumpKick => 30.0;
      base * scale - 0.5 < r.width <= base * scale + 0.5
    ensures var base := match t case Punch => 32.0 case Kick => 24.0 case JumpKick => 28.0;
      base * scale - 0.5 < r.height <= base * scale + 0.5
  {
    match t
    case Kick =>
      var w := Round(28.0 * scale) as real;
      var h := Round(24.0 * scale) as real;
      Rect(if facing == 1 then x + width else x - w, y + 24.0, w, h)
    case JumpKick =>
      var w := Round(30.0 * scale) as real;
      var h := Round(28.0 * scale) as real;
      Rect(if facing == 1 then x + width - 4.0 else x - w + 4.0, y + 12.0, w, h)
    case Punch =>
      var w := Round(24.0 * scale) as real;
      var h := Round(32.0 * scale) as real;
      Rect(if facing == 1 then x + width else x - w, y + 8.0, w, h)
  }

  /** Within the power-up scale range [1, 1.5] a punch box is 24..36 by 32..48 px. */
  lemma PunchHitboxSize(x: real, y: real, width: real, facing: int, scale: real)
    requires 1.0 <= scale <= MAX_SCALE
    ensures var r := Hitbox(Punch, x, y, width, facing, scale);
      24.0 <= r.width <= 36.0 && 32.0 <= r.height <= 48.0
  {
    var r := Hitbox(Punch, x, y, width, facing, scale);
    assert 24.0 * scale - 0.5 < r.width <= 24.0 * scale + 0.5;
    assert r.width == Round(24.0 * scale) as real;
    assert 32.0 * scale - 0.5 < r.height <= 32.0 * scale + 0.5;
    assert r.height == Round(32.0 * scale) as real;
  }

  /** The aggregated power-up modifier for a stat (the manager's `getModifier`). */
  function ModOf(m: PowerUpManager, stat: string): (r: real)
    reads m, m.activePowerUps
  {
    ModifierProduct(m.activePowerUps, stat)
  }

  /** The aggregated scale (the manager's `getScale`). */
  function ScaleOf(m: PowerUpManager): (r: real)
    reads m, m.activePowerUps
  {
    Min(ScaleProduct(m.activePowerUps), MAX_SCALE)
  }

  lemma ScaleOfInRange(m: PowerUpManager)
    ensures 1.0 <= ScaleOf(m) <= MAX_SCALE
  {
    ScaleProductAtLeastOne(m.activePowerUps);
  }

  // ---- one frame of input, as functions of values ----

  /**
   * Horizontal input: left wins over right and sets the speed leftwards;
   * right alone sets it rightwards; neither stops the player. The facing
   * follows the key, and stays when no key is held.
   */
  function RunStep(speed: real, left: bool, right: bool, facing: int): (r: (real, int))
    ensures left ==> r == (-speed, -1)
    ensures !left && right ==> r == (speed, 1)
    ensures !left && !right ==> r == (0.0, facing)
    ensures (facing == 1 || facing == -1) ==> (r.1 == 1 || r.1 == -1)
  {
    if left then (-speed, -1) else if right then (speed, 1) else (0.0, facing)
  }

  /** The fields the jump logic reads and writes. */
  datatype JumpState = JumpState(buffer: int, held: bool, vy: real, grounded: bool, coyote: int)

  /**
   * A jump press (re)arms the 8-frame buffer; an armed buffer jumps when
   * grounded or within coyote time, giving `jumpVy` and consuming the
   * buffer, the coyote window and the ground contact.
   */
  function TakeOff(s: JumpState, pressed: bool, jumpVy: real): (r: JumpState)
    ensures r.held == s.held
    ensures (r.buffer == 0 && r.coyote == 0 && !r.grounded && r.vy == jumpVy)
        || r == s.(buffer := if pressed then JUMP_BUFFER_FRAMES else s.buffer)
  {
    var buffer := if pressed then JUMP_BUFFER_FRAMES else s.buffer;
    if buffer > 0 && (s.grounded || s.coyote > 0) then
      s.(buffer := 0, vy := jumpVy, grounded := false, coyote := 0)
    else
      s.(buffer := buffer)
  }

  /** The variable jump height: with the key up, an upward speed beyond -6 is cut to -6. */
  function Cut(s: JumpState, heldNow: bool): (r: JumpState)
    ensures r.held == heldNow && r == s.(held := heldNow, vy := r.vy)
    ensures !heldNow ==> r.vy >= JUMP_CUT_VELOCITY && (s.vy >= JUMP_CUT_VELOCITY ==> r.vy == s.vy)
    ensures heldNow ==> r.vy == s.vy
  {
    s.(held := heldNow, vy := if !heldNow && s.vy < JUMP_CUT_VELOCITY then JUMP_CUT_VELOCITY else s.vy)
  }

  /** One frame of the jump logic: take-off first, then the cut. */
  function JumpStep(s: JumpState, pressed: bool, heldNow: bool, jumpVy: real): (r: JumpState)
    ensures r.held == heldNow
    ensures !r.held ==> r.vy >= JUMP_CUT_VELOCITY
    ensures r.buffer <= JUMP_BUFFER_FRAMES || r.buffer == s.buffer
  {
    Cut(TakeOff(s, pressed, jumpVy), heldNow)
  }

  /** The jump fires exactly when the (re)armed buffer meets the ground or coyote time. */
  lemma JumpFires(s: JumpState, pressed: bool, heldNow: bool, jumpVy: real)
    requires jumpVy <= JUMP_CUT_VELOCITY
    ensures var r := JumpStep(s, pressed, heldNow, jumpVy);
      var armed := pressed || s.buffer > 0;
      (armed && (s.grounded || s.coyote > 0) ==>
         r.buffer == 0 && !r.grounded && r.coyote == 0 &&
         r.vy == (if heldNow then jumpVy else JUMP_CUT_VELOCITY)) &&
      (!(armed && (s.grounded || s.coyote > 0)) ==>
         r.grounded == s.grounded && r.coyote == s.coyote &&
         r.buffer == (if pressed then JUMP_BUFFER_FRAMES else s.buffer))
  {
  }

  /** The fields the attack trigger reads and writes. */
  datatype Swing = Swing(kind: AttackType, timer: int, cooldown: int, damage: int,
                         hit: set<nat>, state: PlayerState)

  /**
   * With cooldown and swing both over, X/Z starts a punch and C a kick,
   * either a jump kick when airborne: 10 active frames, 20 of cooldown,
   * the type's damage and an empty hit set. Otherwise nothing changes.
   */
  function AttackStep(s: Swing, grounded: bool, punch: bool, kick: bool): (r: Swing)
    ensures r != s ==> s.cooldown <= 0 && s.timer <= 0 && (punch || kick)
    ensures s.cooldown <= 0 && s.timer <= 0 && (punch || kick) ==>
      r.state == Attacking && r.timer == ATTACK_DURATION && r.cooldown == ATTACK_COOLDOWN_MAX &&
      r.hit == {} && r.damage == AttackDamageOf(r.kind) &&
      (r.kind == JumpKick <==> !grounded) && (grounded ==> (r.kind == Punch <==> punch))
  {
    if s.cooldown <= 0 && s.timer <= 0 && (punch || kick) then
      var t := if !grounded then JumpKick else if punch then Punch else Kick;
      Swing(t, ATTACK_DURATION, ATTACK_COOLDOWN_MAX, AttackDamageOf(t), {}, Attacking)
    else s
  }

  class Player {
    var x: real
    var y: real
    const width: real := 32.0
    const height: real := 48.0
    var vx: real
    var vy: real
    var dead: bool

    const acceleration: real := 0.6
    const maxSpeed: real := 5.0
    var facing: Facing

    var grounded: bool
    var coyoteTimer: nat
    var jumpBufferTimer: nat
    var jumpHeld: bool

    var state: PlayerState

    var health: nat
    const maxHealth: int := 100
    var lives: int
    var score: int

    var attackCooldown: nat
    var attackTimer: nat
    var attackDamage: int
    /** The ids of the enemies (and the boss) the current swing has already hit. */
    var hitEnemies: set<nat>
    var attackType: AttackType

    var invincibilityTimer: nat
    var hurtTimer: nat
    var stunTimer: nat

    /** The power-up manager the game installs on the player. */
    const powerUps: PowerUpManager

    constructor (x0: real, y0: real, manager: PowerUpManager)
      ensures powerUps == manager
      ensures x == x0 && y == y0 && vx == 0.0 && vy == 0.0 && !dead && facing == 1
      ensures !grounded && coyoteTimer == 0 && jumpBufferTimer == 0 && !jumpHeld && state == Idle
      ensures health == 100 && lives == 3 && score == 0
      ensures attackCooldown == 0 && attackTimer == 0 && attackDamage == 25 && hitEnemies == {}
      ensures attackType == Punch && invincibilityTimer == 0 && hurtTimer == 0 && stunTimer == 0
    {
      x, y, vx, vy, dead := x0, y0, 0.0, 0.0, false;
      facing, grounded, coyoteTimer, jumpBufferTimer, jumpHeld := 1, false, 0, 0, false;
      state := Idle;
      health, lives, score := 100, 3, 0;
      attackCooldown, attackTimer, attackDamage, hitEnemies, attackType := 0, 0, 25, {}, Punch;
      invincibilityTimer, hurtTimer, stunTimer := 0, 0, 0;
      powerUps := manager;
    }

    function GetBounds(): Rect reads this { Rect(x, y, width, height) }
    function CenterX(): real reads this { Center(x, width) }
    function CenterY(): real reads this { Center(y, height) }

    function BodyOf(): Body reads this
    {
      Body(x, y, width, height, vx, vy, grounded)
    }

    /** Writes back what the tile resolver computed. */
    method SetBody(b: Body)
      modifies this`x, this`y, this`vx, this`vy, this`grounded
      ensures x == b.x && y == b.y && vx == b.vx && vy == b.vy && grounded == b.grounded
    {
      x, y, vx, vy, grounded := b.x, b.y, b.vx, b.vy, b.grounded;
    }

    /** Input is ignored while hurt, dead or stunned. */
    predicate Frozen()
      reads this
    {
      state == Hurt || state == Dead || stunTimer > 0
    }

    /** The jump-related fields, as one value. */
    function JumpOf(): JumpState
      reads this`jumpBufferTimer, this`jumpHeld, this`vy, this`grounded, this`coyoteTimer
    {
      JumpState(jumpBufferTimer, jumpHeld, vy, grounded, coyoteTimer)
    }

    /** The attack-related fields, as one value. */
    function SwingOf(): Swing
      reads this`attackType, this`attackTimer, this`attackCooldown, this`attackDamage,
            this`hitEnemies, this`state
    {
      Swing(attackType, attackTimer, attackCooldown, attackDamage, hitEnemies, state)
    }

    /** The run speed this frame: 60% while attacking, times the speed modifier. */
    function RunSpeed(): real
      reads this`state, powerUps, powerUps.activePowerUps
    {
      (if state == Attacking then maxSpeed * 0.6 else maxSpeed) * ModOf(powerUps, "speed")
    }

    /**
     * `handleInput`. Unless frozen: horizontal run (slower while
     * attacking, scaled by the speed modifier), then jump buffering, the
     * jump itself and the jump cut, then the attack trigger, in that order.
     */
    method HandleInput(input: InputState)
      modifies this`vx, this`facing, this`jumpBufferTimer, this`jumpHeld, this`vy, this`grounded,
               this`coyoteTimer, this`attackType, this`attackTimer, this`attackCooldown,
               this`attackDamage, this`hitEnemies, this`state
      ensures old(Frozen()) ==> unchanged(this)
      ensures !old(Frozen()) ==>
        var k := KeysOf(input);
        (vx, facing) == RunStep(old(RunSpeed()), k.left, k.right, old(facing)) &&
        JumpOf() == JumpStep(old(JumpOf()), k.jumpPressed, k.jumpHeld,
                             JUMP_FORCE * old(ModOf(powerUps, "jump"))) &&
        SwingOf() == AttackStep(old(SwingOf()), grounded, k.punch, k.kick)
    {
      if state == Hurt || state == Dead {
        return;
      }
      if stunTimer > 0 {
        return;
      }
      Act(KeysOf(input));
    }

    /** The three parts of `handleInput` for a player who is not frozen, in source order. */
    method Act(k: Keys)
      modifies this`vx, this`facing, this`jumpBufferTimer, this`jumpHeld, this`vy, this`grounded,
               this`coyoteTimer, this`attackType, this`attackTimer, this`attackCooldown,
               this`attackDamage, this`hitEnemies, this`state
      ensures (vx, facing) == RunStep(old(RunSpeed()), k.left, k.right, old(facing))
      ensures JumpOf() == JumpStep(old(JumpOf()), k.jumpPressed, k.jumpHeld,
                                   JUMP_FORCE * old(ModOf(powerUps, "jump")))
      ensures SwingOf() == AttackStep(old(SwingOf()), grounded, k.punch, k.kick)
    {
      var speed := RunSpeed();
      var jumpVy := JUMP_FORCE * ModOf(powerUps, "jump");
      Run(k, speed);
      Jump(k, jumpVy);
      TryAttack(k);
    }

    /** The attack part of `handleInput`. */
    method TryAttack(k: Keys)
      modifies this`attackType, this`attackTimer, this`attackCooldown, this`attackDamage,
               this`hitEnemies, this`state
      ensures SwingOf() == AttackStep(old(SwingOf()), grounded, k.punch, k.kick)
    {
      if attackCooldown <= 0 && attackTimer <= 0 {
        if k.punch {
          StartAttack(if !grounded then JumpKick else Punch);
        } else if k.kick {
          StartAttack(if !grounded then JumpKick else Kick);
        }
      }
    }

    /** The horizontal part of `handleInput`. */
    method Run(k: Keys, speed: real)
      modifies this`vx, this`facing
      ensures (vx, facing) == RunStep(speed, k.left, k.right, old(facing))
    {
      if k.left {
        vx := -speed;
        facing := -1;
      } else if k.right {
        vx := speed;
        facing := 1;
      } else {
        vx := 0.0;
      }
    }

    /** The vertical part of `handleInput`. */
    method Jump(k: Keys, jumpVy: real)
      modifies this`jumpBufferTimer, this`jumpHeld, this`vy, this`grounded, this`coyoteTimer
      ensures JumpOf() == JumpStep(old(JumpOf()), k.jumpPressed, k.jumpHeld, jumpVy)
    {
      TakeOffStep(k, jumpVy);
      CutStep(k);
    }

    /** Buffering and take-off. */
    method TakeOffStep(k: Keys, jumpVy: real)
      modifies this`jumpBufferTimer, this`vy, this`grounded, this`coyoteTimer
      ensures JumpOf() == TakeOff(old(JumpOf()), k.jumpPressed, jumpVy)
    {
      if k.jumpPressed {
        jumpBufferTimer := JUMP_BUFFER_FRAMES;
      }
      if jumpBufferTimer > 0 && (grounded || coyoteTimer > 0) {
        vy := jumpVy;
        grounded := false;
        coyoteTimer := 0;
        jumpBufferTimer := 0;
      }
    }

    /**
     * Records whether the jump key is held and applies the cut. (The source
     * records the key before the take-off, which does not read it.)
     */
    method CutStep(k: Keys)
      modifies this`jumpHeld, this`vy
      ensures JumpOf() == Cut(old(JumpOf()), k.jumpHeld)
    {
      jumpHeld := k.jumpHeld;
      if !jumpHeld && vy < JUMP_CUT_VELOCITY {
        vy := JUMP_CUT_VELOCITY;
      }
    }

    /** A swing of the given type: 10 active frames, 20 frames of cooldown, a fresh hit set. */
    method StartAttack(t: AttackType)
      modifies this`attackType, this`attackTimer, this`attackCooldown, this`attackDamage,
               this`hitEnemies, this`state
      ensures attackType == t && attackTimer == ATTACK_DURATION && attackCooldown == ATTACK_COOLDOWN_MAX
      ensures attackDamage == AttackDamageOf(t) && hitEnemies == {} && state == Attacking
    {
      attackType := t;
      attackTimer := ATTACK_DURATION;
      attackCooldown := ATTACK_COOLDOWN_MAX;
      attackDamage := AttackDamageOf(t);
      hitEnemies := {};
      state := Attacking;
    }

    /** `getAttackHitbox`: none between swings, else the type's box on the facing side. */
    function GetAttackHitbox(): (r: Option<Rect>)
      reads this, powerUps, powerUps.activePowerUps
      ensures r.None? <==> attackTimer <= 0
      ensures r.Some? ==> r.value == Hitbox(attackType, x, y, width, facing, ScaleOf(powerUps))
    {
      if attackTimer <= 0 then None
      else Some(Hitbox(attackType, x, y, width, facing, ScaleOf(powerUps)))
    }

    /** Whether damage is ignored: invincibility frames, death, or the invincible power-up. */
    predicate Shielded()
      reads this, powerUps, powerUps.activePowerUps
    {
      invincibilityTimer > 0 || state == Dead || powerUps.HasFeature("invincible")
    }

    /**
     * `takeDamage`. Unless shielded: health drops (floored at 0), 8 hurt
     * frames and 90 invincibility frames start, the swing is cancelled and
     * the player is knocked away from the source; at 0 health the player
     * dies and loses exactly one life.
     */
    method TakeDamage(amount: int, sourceX: real)
      modifies this`health, this`hurtTimer, this`invincibilityTimer, this`state, this`attackTimer,
               this`vx, this`vy, this`lives
      ensures old(Shielded()) ==> unchanged(this)
      ensures !old(Shielded()) ==>
        var dies := old(health) - amount <= 0;
        health == (if dies then 0 else old(health) - amount) &&
        hurtTimer == HURT_FRAMES && invincibilityTimer == INVINCIBILITY_DURATION && attackTimer == 0 &&
        state == (if dies then Dead else Hurt) &&
        lives == (if dies then old(lives) - 1 else old(lives)) &&
        vx == (if old(CenterX()) > sourceX then 3.0 else -3.0) && vy == -4.0
    {
      var isInvincible := powerUps.HasFeature("invincible");
      if invincibilityTimer > 0 || state == Dead || isInvincible {
        return;
      }
      var remaining := health - amount;
      hurtTimer := HURT_FRAMES;
      invincibilityTimer := INVINCIBILITY_DURATION;
      state := Hurt;
      attackTimer := 0;
      var dir := if CenterX() > sourceX then 1.0 else -1.0;
      vx := dir * 3.0;
      vy := -4.0;
      if remaining <= 0 {
        health := 0;
        Die();
      } else {
        health := remaining;
      }
    }

    method Die()
      modifies this`state, this`lives
      ensures state == Dead && lives == old(lives) - 1
    {
      state := Dead;
      lives := lives - 1;
    }

    /**
     * `update`: timers count down while positive (the end of a swing
     * empties the hit set, the end of the hurt time returns to IDLE, a stun
     * holds vx at 0), then gravity with the terminal velocity and the
     * horizontal speed limit.
     */
    method Update(dt: real)
      modifies this`attackCooldown, this`attackTimer, this`hitEnemies, this`invincibilityTimer,
               this`hurtTimer, this`state, this`stunTimer, this`vx, this`vy, this`jumpBufferTimer
      ensures attackCooldown == Dec(old(attackCooldown)) && attackTimer == Dec(old(attackTimer))
      ensures hitEnemies == (if old(attackTimer) == 1 then {} else old(hitEnemies))
      ensures invincibilityTimer == Dec(old(invincibilityTimer)) && hurtTimer == Dec(old(hurtTimer))
      ensures state == (if old(hurtTimer) == 1 && old(state) == Hurt then Idle else old(state))
      ensures stunTimer == Dec(old(stunTimer)) && jumpBufferTimer == Dec(old(jumpBufferTimer))
      ensures vy == Clamp(old(vy) + GRAVITY, -TERMINAL_VELOCITY, TERMINAL_VELOCITY)
      ensures vx == Clamp(if old(stunTimer) > 0 then 0.0 else old(vx), -maxSpeed, maxSpeed)
      ensures -TERMINAL_VELOCITY <= vy <= TERMINAL_VELOCITY && -maxSpeed <= vx <= maxSpeed
    {
      TickCombatTimers();
      if stunTimer > 0 {
        stunTimer := stunTimer - 1;
        vx := 0.0;
      }
      vy := vy + GRAVITY;
      vy := Clamp(vy, -TERMINAL_VELOCITY, TERMINAL_VELOCITY);
      vx := Clamp(vx, -maxSpeed, maxSpeed);
      if jumpBufferTimer > 0 {
        jumpBufferTimer := jumpBufferTimer - 1;
      }
    }

    /** The attack, invincibility and hurt countdowns of `update`. */
    method TickCombatTimers()
      modifies this`attackCooldown, this`attackTimer, this`hitEnemies, this`invincibilityTimer,
               this`hurtTimer, this`state
      ensures attackCooldown == Dec(old(attackCooldown)) && attackTimer == Dec(old(attackTimer))
      ensures hitEnemies == (if old(attackTimer) == 1 then {} else old(hitEnemies))
      ensures invincibilityTimer == Dec(old(invincibilityTimer)) && hurtTimer == Dec(old(hurtTimer))
      ensures state == (if old(hurtTimer) == 1 && old(state) == Hurt then Idle else old(state))
    {
      if attackCooldown > 0 {
        attackCooldown := attackCooldown - 1;
      }
      if attackTimer > 0 {
        attackTimer := attackTimer - 1;
        if attackTimer <= 0 {
          hitEnemies := {};
        }
      }
      if invincibilityTimer > 0 {
        invincibilityTimer := invincibilityTimer - 1;
      }
      if hurtTimer > 0 {
        hurtTimer := hurtTimer - 1;
        if hurtTimer <= 0 && state == Hurt {
          state := Idle;
        }
      }
    }

    /**
     * `postCollisionUpdate`: coyote time is refilled on the ground and
     * runs down in the air; then the state is chosen by priority: DEAD and
     * HURT stay, a live swing is ATTACKING, airborne is JUMPING (rising) or
     * FALLING, faster than 0.5 px/frame is RUNNING, else IDLE.
     */
    method PostCollisionUpdate()
      modifies this`coyoteTimer, this`state
      ensures coyoteTimer == (if grounded then COYOTE_FRAMES else Dec(old(coyoteTimer)))
      ensures old(state) == Dead || old(state) == Hurt ==> state == old(state)
      ensures old(state) != Dead && old(state) != Hurt ==>
        state == (if attackTimer > 0 then Attacking
                  else if !grounded then (if vy < 0.0 then Jumping else Falling)
                  else if Abs(vx) > 0.5 then Running
                  else Idle)
    {
      if grounded {
        coyoteTimer := COYOTE_FRAMES;
      } else if coyoteTimer > 0 {
        coyoteTimer := coyoteTimer - 1;
      }
      if state == Dead || state == Hurt {
        return;
      }
      if attackTimer > 0 {
        state := Attacking;
        return;
      }
      if !grounded {
        state := if vy < 0.0 then Jumping else Falling;
      } else if Abs(vx) > 0.5 {
        state := Running;
      } else {
        state := Idle;
      }
    }
  }
}
