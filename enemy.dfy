// Regular enemies: activation, damage and death, the per-frame update
// with gravity and tile collision, the base patrol that turns at walls
// and ledges, and the four variants' AI (Candy hop, Chips shots, Soda
// windup and charge, Cake minion call).
//
// The source has one subclass per variant; here one class carries a
// `kind` tag and the union of the variants' fields, and `UpdateAI`
// dispatches on the tag.

module Enemies {
  import opened Wrappers
  import opened MathUtil
  import opened Entities
  import opened Tiles
  import opened TileMaps
  import opened Collision
  import opened Physics
  import opened EnemyData
  import opened Projectiles

  datatype EnemyState = Patrol | Chase | Attack | Hurt | Dead

  /** A queued spawn request: enemy type name and pixel position. */
  datatype MinionSpawn = MinionSpawn(kind: string, x: real, y: real)

  /** The fields that only an enemy's AI writes. */
  datatype Mind = Mind(facing: Facing, patrolDir: Facing, bounceTimer: nat, charging: bool, chargeTimer: nat,
                       windupTimer: nat, hasSpawnedMinions: bool, pendingProjectile: Projectile?,
                       pendingMinions: Option<seq<MinionSpawn>>)

  const HURT_FRAMES: int := 12
  const CANDY_HOP_INTERVAL: int := 60
  const CANDY_HOP_VELOCITY: real := -3.0
  const SODA_WINDUP_FRAMES: int := 30
  const SODA_CHARGE_FRAMES: int := 60

  /** The pixel a walker looks at: 2px beyond its leading edge. */
  function AheadX(x: real, width: real, dir: int): real
  {
    if dir > 0 then x + width + 2.0 else x - 2.0
  }

  /** A solid tile 2px ahead at the given height. */
  predicate SolidAt(m: TileMap, px: real, py: real)
    requires WellFormed(m)
  {
    var t := GetTileAtPixel(m, px, py);
    t.Some? && t.value.solid
  }

  /**
   * Patrol turns around at a wall (a solid tile 2px ahead at centre height)
   * or, when standing on ground, at a ledge (no solid tile 2px ahead and
   * 4px below the feet).
   */
  predicate PatrolBlocked(m: TileMap, x: real, y: real, width: real, height: real,
                          dir: int, grounded: bool)
    requires WellFormed(m)
  {
    var ax := AheadX(x, width, dir);
    SolidAt(m, ax, Center(y, height)) || (grounded && !SolidAt(m, ax, y + height + 4.0))
  }

  /** `distanceTo(player) < range`, compared on squares. */
  predicate WithinRange(cx: real, cy: real, px: real, py: real, range: real)
  {
    (cx - px) * (cx - px) + (cy - py) * (cy - py) < range * range
  }

  /** The configuration of the projectile Chips throws (velocity aside). */
  function ChipsShotConfig(): (c: ProjectileConfig)
    ensures WithDefaults(c) == c
    ensures c.width == 8.0 && c.height == 8.0 && c.damage == CHIPS_PROJECTILE_DAMAGE
    ensures c.life == 120 && c.gravity == 0.05 && !c.fromPlayer && c.stun == 0
  {
    ProjectileConfig(8.0, 8.0, CHIPS_PROJECTILE_DAMAGE, "#ffa500", 120, false, 0.05, 0)
  }

  /** `Math.sqrt(dx * dx + dy * dy)`, with `sqrt` the host's square root. */
  function Distance(sqrt: real -> real, dx: real, dy: real): real
  {
    sqrt(dx * dx + dy * dy)
  }

  /**
   * One component of an aimed shot: the direction to the target scaled to
   * the given speed. `sqrt` is the host's square root. At zero distance the
   * source divides by zero (NaN); the component is 0 here.
   */
  function Aim(d: real, dist: real, speed: real): real
  {
    if dist == 0.0 then 0.0 else d / dist * speed
  }

  /** Gravity clamped to the terminal velocity, and `grounded` cleared before the tile pass. */
  function Fall(b: Body): (r: Body)
    ensures -TERMINAL_VELOCITY <= r.vy <= TERMINAL_VELOCITY && !r.grounded
    ensures r == b.(vy := r.vy, grounded := false)
    ensures b.vy + GRAVITY > TERMINAL_VELOCITY ==> r.vy == TERMINAL_VELOCITY
    ensures -TERMINAL_VELOCITY <= b.vy + GRAVITY <= TERMINAL_VELOCITY ==> r.vy == b.vy + GRAVITY
  {
    b.(vy := Clamp(b.vy + GRAVITY, -TERMINAL_VELOCITY, TERMINAL_VELOCITY), grounded := false)
  }

  /**
   * What one frame of AI decides: the body's velocities, the AI-only
   * fields (whose queued shot is left as it was), the fire timer, and
   * whether a shot is fired.
   */
  datatype Thought = Thought(vx: real, vy: real, mind: Mind, fireTimer: nat, fire: bool)

  /** `_doPatrol` on values: turn when blocked, then face and walk along the patrol direction. */
  function Patrolling(m: TileMap, b: Body, speed: real, t: Thought): Thought
    requires WellFormed(m)
  {
    var d := t.mind.patrolDir;
    var d' := if PatrolBlocked(m, b.x, b.y, b.width, b.height, d, b.grounded) then Flip(d) else d;
    t.(vx := Toward(d', speed), mind := t.mind.(facing := d', patrolDir := d'))
  }

  /** Candy's decision: patrol, and hop once the counter passes 60 on the ground. */
  function CandyThink(m: TileMap, b: Body, speed: real, t: Thought): Thought
    requires WellFormed(m)
  {
    var p := Patrolling(m, b, speed, t);
    var hop := b.grounded && t.mind.bounceTimer + 1 > CANDY_HOP_INTERVAL;
    p.(vy := if hop then CANDY_HOP_VELOCITY else t.vy,
       mind := p.mind.(bounceTimer := if hop then 0 else t.mind.bounceTimer + 1))
  }

  /** Chips' decision: patrol, and fire once the timer has run out with the player in range. */
  function ChipsThink(m: TileMap, b: Body, speed: real, t: Thought, playerCX: real, playerCY: real): Thought
    requires WellFormed(m)
  {
    var p := Patrolling(m, b, speed, t);
    var fire := WithinRange(Center(b.x, b.width), Center(b.y, b.height), playerCX, playerCY,
                            CHIPS_DETECTION_RANGE) && t.fireTimer <= 0;
    p.(fireTimer := if fire then CHIPS_FIRE_RATE else t.fireTimer, fire := fire)
  }

  /** Soda's decision: the charge, else the windup, else spotting the player, else patrol. */
  function SodaThink(m: TileMap, b: Body, speed: real, t: Thought, playerCX: real, playerCY: real): Thought
    requires WellFormed(m) && (t.mind.charging ==> t.mind.chargeTimer > 0)
  {
    var n := t.mind;
    var cx := Center(b.x, b.width);
    if n.charging then
      var left := n.chargeTimer - 1;
      var stop := left <= 0 || SolidAt(m, AheadX(b.x, b.width, n.facing), Center(b.y, b.height));
      t.(vx := if stop then 0.0 else Toward(n.facing, SODA_CHARGE_SPEED),
         mind := n.(chargeTimer := left, charging := !stop, windupTimer := if stop then 0 else n.windupTimer))
    else if n.windupTimer > 0 then
      var left := n.windupTimer - 1;
      t.(vx := 0.0, mind := n.(windupTimer := left, charging := left <= 0,
                               chargeTimer := if left <= 0 then SODA_CHARGE_FRAMES else n.chargeTimer))
    else if WithinRange(cx, Center(b.y, b.height), playerCX, playerCY, SODA_DETECTION_RANGE) then
      t.(mind := n.(facing := if playerCX > cx then 1 else -1, windupTimer := SODA_WINDUP_FRAMES))
    else
      Patrolling(m, b, speed, t)
  }

  /** Cake's decision: patrol, and call two candies the first time health is at most half. */
  function CakeThink(m: TileMap, b: Body, speed: real, t: Thought, hp: real, maxHp: real): Thought
    requires WellFormed(m)
  {
    var p := Patrolling(m, b, speed, t);
    var call := !t.mind.hasSpawnedMinions && hp <= maxHp * CAKE_SPAWN_MINIONS_AT_HP_PERCENT;
    p.(mind := p.mind.(hasSpawnedMinions := t.mind.hasSpawnedMinions || call,
                       pendingMinions := if call then Some([MinionSpawn("candy", b.x - 40.0, b.y),
                                                            MinionSpawn("candy", b.x + b.width + 10.0, b.y)])
                                         else t.mind.pendingMinions))
  }

  /**
   * `updateAI` of each variant on values, from the body `b`, the AI fields
   * `n`, the fire timer and health. Only Chips fires (and then restarts
   * its timer at 90), only Candy hops, only Cake calls minions, and at
   * most once; the queued shot is never touched here.
   */
  function Think(kind: EnemyKind, m: TileMap, b: Body, n: Mind, fireTimer: nat, hp: real,
                 playerCX: real, playerCY: real): (t: Thought)
    requires WellFormed(m) && (n.charging ==> n.chargeTimer > 0)
    ensures t.mind.pendingProjectile == n.pendingProjectile
    ensures t.fire ==> kind == Chips && fireTimer == 0 && t.fireTimer == CHIPS_FIRE_RATE
    ensures !t.fire ==> t.fireTimer == fireTimer
    ensures kind != Candy ==> t.vy == b.vy && t.mind.bounceTimer == n.bounceTimer
    ensures kind != Cake || n.hasSpawnedMinions ==>
      t.mind.hasSpawnedMinions == n.hasSpawnedMinions && t.mind.pendingMinions == n.pendingMinions
    ensures kind != Soda ==>
      t.mind.charging == n.charging && t.mind.chargeTimer == n.chargeTimer && t.mind.windupTimer == n.windupTimer
    ensures t.mind.charging ==> t.mind.chargeTimer > 0
  {
    var t0 := Thought(b.vx, b.vy, n, fireTimer, false);
    var speed := ConfigOf(kind).speed;
    match kind
    case Candy => CandyThink(m, b, speed, t0)
    case Chips => ChipsThink(m, b, speed, t0, playerCX, playerCY)
    case Soda => SodaThink(m, b, speed, t0, playerCX, playerCY)
    case Cake => CakeThink(m, b, speed, t0, hp, ConfigOf(Cake).hp)
  }

  /**
   * Chips' queued shot fired from the centre (cx, cy) at the player's
   * centre: 8x8, from 4px up and left of the centre, aimed at 3 px/frame.
   */
  predicate ChipsShot(p: Projectile?, cx: real, cy: real, playerCX: real, playerCY: real, sqrt: real -> real)
    reads p
  {
    var dx := playerCX - cx;
    var dy := playerCY - cy;
    var dist := Distance(sqrt, dx, dy);
    p != null && p.x == cx - 4.0 && p.y == cy - 4.0 &&
    p.vx == Aim(dx, dist, CHIPS_PROJECTILE_SPEED) && p.vy == Aim(dy, dist, CHIPS_PROJECTILE_SPEED) &&
    p.width == 8.0 && p.height == 8.0 && p.damage == CHIPS_PROJECTILE_DAMAGE && p.life == 120 &&
    p.gravity == 0.05 && !p.fromPlayer && p.stun == 0 && !p.dead
  }

  class Enemy {
    const kind: EnemyKind
    /** The identity the game uses to remember which enemies a swing hit. */
    const id: nat
    var x: real
    var y: real
    const width: real := ConfigOf(kind).width
    const height: real := ConfigOf(kind).height
    var vx: real
    var vy: real
    var dead: bool
    var grounded: bool

    var hp: real
    const maxHp: real := ConfigOf(kind).hp
    const damage: int := ConfigOf(kind).damage
    const speed: real := ConfigOf(kind).speed
    const scoreValue: int := ConfigOf(kind).score

    var facing: Facing
    var patrolDir: Facing
    var state: EnemyState
    var hurtTimer: nat
    var flashTimer: nat
    var activated: bool
    var fireTimer: nat

    // Candy
    var bounceTimer: nat
    // Soda
    var charging: bool
    var chargeTimer: nat
    var windupTimer: nat
    // Cake
    var hasSpawnedMinions: bool

    // Outbound requests, drained by the game each frame.
    var pendingProjectile: Projectile?
    var pendingMinions: Option<seq<MinionSpawn>>

    ghost predicate Valid()
      reads this
    {
      hp >= 0.0 && (dead <==> state == Dead) && (charging ==> chargeTimer > 0)
    }

    constructor (kind0: EnemyKind, x0: real, y0: real, id0: nat)
      ensures Valid()
      ensures kind == kind0 && id == id0 && x == x0 && y == y0 && vx == 0.0 && vy == 0.0
      ensures hp == maxHp == ConfigOf(kind0).hp && damage == ConfigOf(kind0).damage
      ensures speed == ConfigOf(kind0).speed && scoreValue == ConfigOf(kind0).score
      ensures facing == -1 && patrolDir == -1 && state == Patrol && !dead && !activated
      ensures hurtTimer == 0 && flashTimer == 0 && !grounded
      ensures fireTimer == (if kind0 == Chips then CHIPS_FIRE_RATE else 0)
      ensures bounceTimer == 0 && !charging && chargeTimer == 0 && windupTimer == 0
      ensures !hasSpawnedMinions && pendingProjectile == null && pendingMinions.None?
    {
      var cfg := ConfigOf(kind0);
      kind, id := kind0, id0;
      x, y := x0, y0;
      vx, vy, dead, grounded := 0.0, 0.0, false, false;
      hp := cfg.hp;
      facing, patrolDir, state := -1, -1, Patrol;
      hurtTimer, flashTimer, activated := 0, 0, false;
      fireTimer := if kind0 == Chips then CHIPS_FIRE_RATE else 0;
      bounceTimer, charging, chargeTimer, windupTimer := 0, false, 0, 0;
      hasSpawnedMinions, pendingProjectile, pendingMinions := false, null, None;
    }

    function GetBounds(): Rect reads this { Rect(x, y, width, height) }
    function CenterX(): real reads this { Center(x, width) }
    function CenterY(): real reads this { Center(y, height) }

    /** Idempotent: only sets `activated`. */
    method Activate()
      modifies this`activated
      ensures activated
    {
      activated := true;
    }

    method Die()
      modifies this`state, this`dead
      ensures state == Dead && dead
    {
      state := Dead;
      dead := true;
    }

    /**
     * Ignored once dead. Otherwise hp drops (floored at 0), the hurt and
     * flash timers restart at 12 and the enemy is knocked away from the
     * source; at 0 hp it dies.
     */
    method TakeDamage(amount: real, sourceX: real)
      requires Valid()
      modifies this`hp, this`hurtTimer, this`flashTimer, this`state, this`vx, this`vy, this`dead
      ensures Valid()
      ensures old(state) == Dead ==> unchanged(this)
      ensures old(state) != Dead ==>
        hp == (if old(hp) - amount <= 0.0 then 0.0 else old(hp) - amount) &&
        hurtTimer == HURT_FRAMES && flashTimer == HURT_FRAMES &&
        state == (if old(hp) - amount <= 0.0 then Dead else Hurt) &&
        dead == (old(hp) - amount <= 0.0) &&
        vx == (if old(CenterX()) > sourceX then 4.0 else -4.0) && vy == -3.0
    {
      if state == Dead {
        return;
      }
      var remaining := hp - amount;
      hurtTimer := HURT_FRAMES;
      flashTimer := HURT_FRAMES;
      state := Hurt;
      var dir := if CenterX() > sourceX then 1.0 else -1.0;
      vx := dir * 4.0;
      vy := -3.0;
      if remaining <= 0.0 {
        hp := 0.0;
        Die();
      } else {
        hp := remaining;
      }
    }

    /**
     * Walk in the patrol direction at the type's speed, turning around
     * when `PatrolBlocked` holds for the current direction.
     */
    method DoPatrol(m: TileMap)
      requires Valid() && WellFormed(m)
      modifies this`vx, this`facing, this`patrolDir
      ensures Valid()
      ensures patrolDir == (if PatrolBlocked(m, x, y, width, height, old(patrolDir), grounded)
                            then Flip(old(patrolDir)) else old(patrolDir))
      ensures facing == patrolDir && vx == Toward(patrolDir, speed)
    {
      vx := Toward(patrolDir, speed);
      facing := patrolDir;
      var blocked := PatrolProbe(m);
      if blocked {
        patrolDir := Flip(patrolDir);
        vx := Toward(patrolDir, speed);
        facing := patrolDir;
      }
    }

    /** The two tile probes of `_doPatrol`: a wall ahead, or (on the ground) no floor ahead. */
    method PatrolProbe(m: TileMap) returns (blocked: bool)
      requires WellFormed(m)
      ensures blocked == PatrolBlocked(m, x, y, width, height, patrolDir, grounded)
    {
      var aheadX := if patrolDir > 0 then x + width + 2.0 else x - 2.0;
      var belowY := y + height + 4.0;
      var tileAhead := GetTileAtPixel(m, aheadX, CenterY());
      var tileBelow := GetTileAtPixel(m, aheadX, belowY);
      blocked := (tileAhead.Some? && tileAhead.value.solid) ||
                 (grounded && (tileBelow.None? || !tileBelow.value.solid));
    }

    /** Candy: patrol, and hop every time the counter passes 60 while grounded. */
    method CandyAI(m: TileMap)
      requires Valid() && WellFormed(m)
      modifies this`vx, this`facing, this`patrolDir, this`vy, this`bounceTimer
      ensures Valid()
      ensures patrolDir == (if PatrolBlocked(m, x, y, width, height, old(patrolDir), grounded)
                            then Flip(old(patrolDir)) else old(patrolDir))
      ensures facing == patrolDir && vx == Toward(patrolDir, speed)
      ensures var hop := grounded && old(bounceTimer) + 1 > CANDY_HOP_INTERVAL;
        bounceTimer == (if hop then 0 else old(bounceTimer) + 1) &&
        vy == (if hop then CANDY_HOP_VELOCITY else old(vy))
    {
      DoPatrol(m);
      bounceTimer := bounceTimer + 1;
      if grounded && bounceTimer > CANDY_HOP_INTERVAL {
        vy := CANDY_HOP_VELOCITY;
        bounceTimer := 0;
      }
    }

    /**
     * Chips: patrol, and when the player is within 200px and the fire
     * timer has run out, reset the timer to 90 and queue a shot at the
     * player from the centre.
     */
    method ChipsAI(m: TileMap, playerCX: real, playerCY: real, sqrt: real -> real)
      requires Valid() && WellFormed(m)
      modifies this`vx, this`facing, this`patrolDir, this`fireTimer, this`pendingProjectile
      ensures Valid()
      ensures patrolDir == (if PatrolBlocked(m, x, y, width, height, old(patrolDir), grounded)
                            then Flip(old(patrolDir)) else old(patrolDir))
      ensures facing == patrolDir && vx == Toward(patrolDir, speed)
      ensures var fire := WithinRange(CenterX(), CenterY(), playerCX, playerCY, CHIPS_DETECTION_RANGE) &&
                          old(fireTimer) <= 0;
        fireTimer == (if fire then CHIPS_FIRE_RATE else old(fireTimer)) &&
        (fire ==> pendingProjectile != null && fresh(pendingProjectile) &&
                  pendingProjectile.x == CenterX() - 4.0 && pendingProjectile.y == CenterY() - 4.0 &&
                  pendingProjectile.width == 8.0 && pendingProjectile.height == 8.0 &&
                  pendingProjectile.damage == CHIPS_PROJECTILE_DAMAGE &&
                  pendingProjectile.life == 120 && pendingProjectile.gravity == 0.05 &&
                  !pendingProjectile.fromPlayer && !pendingProjectile.dead) &&
        (!fire ==> pendingProjectile == old(pendingProjectile))
      ensures WithinRange(CenterX(), CenterY(), playerCX, playerCY, CHIPS_DETECTION_RANGE) && old(fireTimer) <= 0 ==>
        ChipsShot(pendingProjectile, CenterX(), CenterY(), playerCX, playerCY, sqrt)
    {
      DoPatrol(m);
      var cx, cy := CenterX(), CenterY();
      if WithinRange(cx, cy, playerCX, playerCY, CHIPS_DETECTION_RANGE) && fireTimer <= 0 {
        fireTimer := CHIPS_FIRE_RATE;
        var dx := playerCX - cx;
        var dy := playerCY - cy;
        var dist := Distance(sqrt, dx, dy);
        var p := new Projectile(cx - 4.0, cy - 4.0,
                                Aim(dx, dist, CHIPS_PROJECTILE_SPEED), Aim(dy, dist, CHIPS_PROJECTILE_SPEED),
                                ChipsShotConfig());
        pendingProjectile := p;
      }
    }

    /** Soda's `_hitWall`: a solid tile 2px ahead (in the facing direction) at centre height. */
    function HitWall(m: TileMap): (b: bool)
      requires WellFormed(m)
      reads this
      ensures b <==> SolidAt(m, AheadX(x, width, facing), CenterY())
    {
      var aheadX := if facing > 0 then x + width + 2.0 else x - 2.0;
      var tile := GetTileAtPixel(m, aheadX, CenterY());
      tile.Some? && tile.value.solid
    }

    /**
     * Soda, first matching branch: charging (run at 5 px/frame until the
     * 60-frame timer runs out or a wall is ahead), winding up (stand still
     * for 30 frames, then charge), spotting the player within 150px (face
     * them and start the windup), or patrolling.
     */
    method SodaAI(m: TileMap, playerCX: real, playerCY: real)
      requires Valid() && WellFormed(m)
      modifies this`vx, this`facing, this`patrolDir, this`charging, this`chargeTimer, this`windupTimer
      ensures Valid()
      ensures old(charging) ==>
        chargeTimer == old(chargeTimer) - 1 && facing == old(facing) && patrolDir == old(patrolDir) &&
        var stop := chargeTimer <= 0 || HitWall(m);
        charging == !stop && (stop ==> windupTimer == 0 && vx == 0.0) &&
        (!stop ==> windupTimer == old(windupTimer) && vx == Toward(facing, SODA_CHARGE_SPEED))
      ensures !old(charging) && old(windupTimer) > 0 ==>
        vx == 0.0 && windupTimer == old(windupTimer) - 1 && facing == old(facing) && patrolDir == old(patrolDir) &&
        charging == (windupTimer <= 0) &&
        chargeTimer == (if windupTimer <= 0 then SODA_CHARGE_FRAMES else old(chargeTimer))
      ensures !old(charging) && old(windupTimer) <= 0 &&
              WithinRange(CenterX(), CenterY(), playerCX, playerCY, SODA_DETECTION_RANGE) ==>
        facing == (if playerCX > CenterX() then 1 else -1) && windupTimer == SODA_WINDUP_FRAMES &&
        !charging && vx == old(vx) && patrolDir == old(patrolDir) && chargeTimer == old(chargeTimer)
      ensures !old(charging) && old(windupTimer) <= 0 &&
              !WithinRange(CenterX(), CenterY(), playerCX, playerCY, SODA_DETECTION_RANGE) ==>
        patrolDir == (if PatrolBlocked(m, x, y, width, height, old(patrolDir), grounded)
                      then Flip(old(patrolDir)) else old(patrolDir)) &&
        facing == patrolDir && vx == Toward(patrolDir, speed) &&
        !charging && windupTimer == old(windupTimer) && chargeTimer == old(chargeTimer)
    {
      var cx, cy := CenterX(), CenterY();
      var near := WithinRange(cx, cy, playerCX, playerCY, SODA_DETECTION_RANGE);
      if charging {
        vx := Toward(facing, SODA_CHARGE_SPEED);
        chargeTimer := chargeTimer - 1;
        if chargeTimer <= 0 || HitWall(m) {
          charging := false;
          windupTimer := 0;
          vx := 0.0;
        }
      } else if windupTimer > 0 {
        vx := 0.0;
        windupTimer := windupTimer - 1;
        if windupTimer <= 0 {
          charging := true;
          chargeTimer := SODA_CHARGE_FRAMES;
        }
      } else if near {
        facing := if playerCX > cx then 1 else -1;
        windupTimer := SODA_WINDUP_FRAMES;
      } else {
        DoPatrol(m);
      }
    }

    /**
     * Cake: patrol; the first time hp is at most half of maxHp, latch
     * `hasSpawnedMinions` and request two candies, 40px to the left and
     * 10px past the right edge, at the cake's height.
     */
    method CakeAI(m: TileMap)
      requires Valid() && WellFormed(m)
      modifies this`vx, this`facing, this`patrolDir, this`hasSpawnedMinions, this`pendingMinions
      ensures Valid()
      ensures patrolDir == (if PatrolBlocked(m, x, y, width, height, old(patrolDir), grounded)
                            then Flip(old(patrolDir)) else old(patrolDir))
      ensures facing == patrolDir && vx == Toward(patrolDir, speed)
      ensures var call := !old(hasSpawnedMinions) && hp <= maxHp * CAKE_SPAWN_MINIONS_AT_HP_PERCENT;
        hasSpawnedMinions == (old(hasSpawnedMinions) || call) &&
        pendingMinions == (if call then Some([MinionSpawn("candy", x - 40.0, y),
                                              MinionSpawn("candy", x + width + 10.0, y)])
                           else old(pendingMinions))
    {
      DoPatrol(m);
      if !hasSpawnedMinions && hp <= maxHp * CAKE_SPAWN_MINIONS_AT_HP_PERCENT {
        hasSpawnedMinions := true;
        pendingMinions := Some([MinionSpawn("candy", x - 40.0, y), MinionSpawn("candy", x + width + 10.0, y)]);
      }
    }

    /**
     * The AI-only fields as decided by `t`, and the queue holding a new shot
     * aimed from (`cx`, `cy`) exactly when `t` fires (`p0` is the queue before).
     */
    ghost predicate Follows(t: Thought, p0: Projectile?, cx: real, cy: real, playerCX: real, playerCY: real,
                            sqrt: real -> real)
      reads this, pendingProjectile
    {
      facing == t.mind.facing && patrolDir == t.mind.patrolDir &&
      bounceTimer == t.mind.bounceTimer && charging == t.mind.charging && chargeTimer == t.mind.chargeTimer &&
      windupTimer == t.mind.windupTimer && hasSpawnedMinions == t.mind.hasSpawnedMinions &&
      pendingMinions == t.mind.pendingMinions &&
      (t.fire ==> pendingProjectile != p0 && ChipsShot(pendingProjectile, cx, cy, playerCX, playerCY, sqrt)) &&
      (!t.fire ==> pendingProjectile == p0)
    }

    /** Right after the AI: velocities and fire timer as `t` decided, the rest following `t`. */
    ghost predicate Decided(m: TileMap, t: Thought, p0: Projectile?, playerCX: real, playerCY: real,
                            sqrt: real -> real)
      reads this, pendingProjectile
    {
      vx == t.vx && vy == t.vy && fireTimer == t.fireTimer &&
      Follows(t, p0, CenterX(), CenterY(), playerCX, playerCY, sqrt)
    }

    /**
     * After the AI decided `t` for body `b` and the physics ran: the body
     * with the decided velocities, fallen and resolved against the tiles,
     * the fire timer counted down, and the rest following `t`.
     */
    ghost predicate Acted(m: TileMap, b: Body, t: Thought, p0: Projectile?, playerCX: real, playerCY: real,
                          sqrt: real -> real)
      requires WellFormed(m)
      reads this, pendingProjectile
    {
      var r := ResolveSpec(Fall(b.(vx := t.vx, vy := t.vy)), m);
      x == r.x && y == r.y && vx == r.vx && vy == r.vy && grounded == r.grounded &&
      fireTimer == (if t.fireTimer > 0 then t.fireTimer - 1 else 0) &&
      Follows(t, p0, Center(b.x, b.width), Center(b.y, b.height), playerCX, playerCY, sqrt)
    }

    /** `updateAI`, dispatched on the variant: the decision `Think` describes. */
    method UpdateAI(m: TileMap, playerCX: real, playerCY: real, sqrt: real -> real)
      requires Valid() && WellFormed(m)
      modifies this`vx, this`vy, this`facing, this`patrolDir, this`bounceTimer, this`charging, this`chargeTimer,
               this`windupTimer, this`hasSpawnedMinions, this`pendingMinions, this`fireTimer, this`pendingProjectile
      ensures Valid()
      ensures x == old(x) && y == old(y) && hp == old(hp) && state == old(state)
      ensures hurtTimer == old(hurtTimer) && flashTimer == old(flashTimer)
      ensures activated == old(activated) && grounded == old(grounded)
      ensures kind != Chips ==> fireTimer == old(fireTimer) && pendingProjectile == old(pendingProjectile)
      ensures kind != Cake ==> hasSpawnedMinions == old(hasSpawnedMinions) && pendingMinions == old(pendingMinions)
      ensures kind == Chips ==> fireTimer == old(fireTimer) || fireTimer == CHIPS_FIRE_RATE
      ensures pendingProjectile != old(pendingProjectile) ==> fresh(pendingProjectile)
      ensures Decided(m, Think(kind, m, old(BodyOf()), old(MindOf()), old(fireTimer), hp, playerCX, playerCY),
                      old(pendingProjectile), playerCX, playerCY, sqrt)
    {
      if kind == Chips || kind == Soda {
        WatchingAI(m, playerCX, playerCY, sqrt);
      } else {
        BlindAI(m, playerCX, playerCY, sqrt);
      }
    }

    /** The variants whose AI ignores the player: Candy and Cake. */
    method BlindAI(m: TileMap, playerCX: real, playerCY: real, sqrt: real -> real)
      requires Valid() && WellFormed(m) && (kind == Candy || kind == Cake)
      modifies this`vx, this`vy, this`facing, this`patrolDir, this`bounceTimer, this`hasSpawnedMinions,
               this`pendingMinions
      ensures Valid()
      ensures Decided(m, Think(kind, m, old(BodyOf()), old(MindOf()), old(fireTimer), hp, playerCX, playerCY),
                      old(pendingProjectile), playerCX, playerCY, sqrt)
    {
      if kind == Candy {
        CandyAI(m);
      } else {
        CakeAI(m);
      }
    }

    /** The variants whose AI watches the player: Chips and Soda. */
    method WatchingAI(m: TileMap, playerCX: real, playerCY: real, sqrt: real -> real)
      requires Valid() && WellFormed(m) && (kind == Chips || kind == Soda)
      modifies this`vx, this`facing, this`patrolDir, this`fireTimer, this`pendingProjectile, this`charging,
               this`chargeTimer, this`windupTimer
      ensures Valid()
      ensures pendingProjectile != old(pendingProjectile) ==> fresh(pendingProjectile)
      ensures Decided(m, Think(kind, m, old(BodyOf()), old(MindOf()), old(fireTimer), hp, playerCX, playerCY),
                      old(pendingProjectile), playerCX, playerCY, sqrt)
    {
      if kind == Chips {
        ChipsAI(m, playerCX, playerCY, sqrt);
      } else {
        SodaAI(m, playerCX, playerCY);
      }
    }

    function BodyOf(): Body reads this
    {
      Body(x, y, width, height, vx, vy, grounded)
    }

    /** The AI's starting point: the current velocities, AI fields and fire timer, nothing fired. */
    function Undecided(): Thought reads this
    {
      Thought(vx, vy, MindOf(), fireTimer, false)
    }

    function MindOf(): Mind reads this
    {
      Mind(facing, patrolDir, bounceTimer, charging, chargeTimer, windupTimer, hasSpawnedMinions,
           pendingProjectile, pendingMinions)
    }

    /**
     * One frame. Nothing happens unless activated and alive. Otherwise the
     * hurt timer counts down (returning to PATROL when it runs out), AI
     * runs unless hurt, gravity is applied and clamped to the terminal
     * velocity, the body is resolved against the tiles, knockback is damped
     * on the ground, and a positive fire timer counts down.
     */
    method Update(m: TileMap, playerCX: real, playerCY: real, sqrt: real -> real)
      requires Valid() && WellFormed(m)
      modifies this
      ensures Valid()
      ensures !old(activated) || old(state) == Dead ==> unchanged(this)
      ensures old(activated) && old(state) != Dead ==>
        -TERMINAL_VELOCITY <= vy <= TERMINAL_VELOCITY &&
        hp == old(hp) && !dead && activated &&
        hurtTimer == (if old(hurtTimer) > 0 then old(hurtTimer) - 1 else 0) &&
        flashTimer == (if old(flashTimer) > 0 then old(flashTimer) - 1 else 0) &&
        state == (if old(hurtTimer) == 1 then Patrol else old(state))
      ensures old(activated) && old(state) != Dead && kind != Chips ==>
        fireTimer == (if old(fireTimer) > 0 then old(fireTimer) - 1 else 0)
      ensures pendingProjectile != old(pendingProjectile) ==> fresh(pendingProjectile)
      ensures old(activated) && old(state) == Hurt && old(hurtTimer) != 1 ==>
        MindOf() == old(MindOf()) &&
        fireTimer == (if old(fireTimer) > 0 then old(fireTimer) - 1 else 0) &&
        var r := ResolveSpec(Fall(old(BodyOf())), m);
        x == r.x && y == r.y && vy == r.vy && grounded == r.grounded &&
        vx == (if r.grounded then r.vx * 0.8 else r.vx)
      ensures old(activated) && old(state) != Dead && (old(state) != Hurt || old(hurtTimer) == 1) ==>
        Acted(m, old(BodyOf()), Think(kind, m, old(BodyOf()), old(MindOf()), old(fireTimer), hp, playerCX, playerCY),
              old(pendingProjectile), playerCX, playerCY, sqrt)
    {
      if !activated || state == Dead {
        return;
      }
      ActiveFrame(m, playerCX, playerCY, sqrt);
    }

    /** The frame of an activated, living enemy: timers, AI unless hurt, then physics. */
    method ActiveFrame(m: TileMap, playerCX: real, playerCY: real, sqrt: real -> real)
      requires Valid() && WellFormed(m) && activated && state != Dead
      modifies this
      ensures Valid()
      ensures -TERMINAL_VELOCITY <= vy <= TERMINAL_VELOCITY &&
        hp == old(hp) && !dead && activated &&
        hurtTimer == (if old(hurtTimer) > 0 then old(hurtTimer) - 1 else 0) &&
        flashTimer == (if old(flashTimer) > 0 then old(flashTimer) - 1 else 0) &&
        state == (if old(hurtTimer) == 1 then Patrol else old(state))
      ensures kind != Chips ==> fireTimer == (if old(fireTimer) > 0 then old(fireTimer) - 1 else 0)
      ensures pendingProjectile != old(pendingProjectile) ==> fresh(pendingProjectile)
      ensures old(state) == Hurt && old(hurtTimer) != 1 ==>
        MindOf() == old(MindOf()) &&
        fireTimer == (if old(fireTimer) > 0 then old(fireTimer) - 1 else 0) &&
        var r := ResolveSpec(Fall(old(BodyOf())), m);
        x == r.x && y == r.y && vy == r.vy && grounded == r.grounded &&
        vx == (if r.grounded then r.vx * 0.8 else r.vx)
      ensures old(state) != Hurt || old(hurtTimer) == 1 ==>
        Acted(m, old(BodyOf()), Think(kind, m, old(BodyOf()), old(MindOf()), old(fireTimer), hp, playerCX, playerCY),
              old(pendingProjectile), playerCX, playerCY, sqrt)
    {
      TickHurtTimers();
      if state != Hurt {
        ThinkFrame(m, playerCX, playerCY, sqrt);
      } else {
        StepPhysics(m);
      }
    }

    /** The AI, then the physics, of an enemy that is not hurt. */
    method ThinkFrame(m: TileMap, playerCX: real, playerCY: real, sqrt: real -> real)
      requires Valid() && WellFormed(m) && state != Hurt
      modifies this
      ensures Valid() && -TERMINAL_VELOCITY <= vy <= TERMINAL_VELOCITY
      ensures hp == old(hp) && dead == old(dead) && activated == old(activated) && state == old(state)
      ensures hurtTimer == old(hurtTimer) && flashTimer == old(flashTimer)
      ensures kind != Chips ==> fireTimer == (if old(fireTimer) > 0 then old(fireTimer) - 1 else 0)
      ensures pendingProjectile != old(pendingProjectile) ==> fresh(pendingProjectile)
      ensures Acted(m, old(BodyOf()), Think(kind, m, old(BodyOf()), old(MindOf()), old(fireTimer), hp, playerCX, playerCY),
                    old(pendingProjectile), playerCX, playerCY, sqrt)
    {
      UpdateAI(m, playerCX, playerCY, sqrt);
      StepPhysics(m);
    }

    /**
     * The physics half of a frame: gravity clamped to the terminal
     * velocity, tile resolution, knockback damping on the ground and the
     * fire timer.
     */
    method StepPhysics(m: TileMap)
      requires Valid() && WellFormed(m)
      modifies this`x, this`y, this`vx, this`vy, this`grounded, this`fireTimer
      ensures Valid()
      ensures var r := ResolveSpec(Fall(old(BodyOf())), m);
        x == r.x && y == r.y && vy == r.vy && grounded == r.grounded &&
        vx == (if r.grounded && state == Hurt then r.vx * 0.8 else r.vx)
      ensures -TERMINAL_VELOCITY <= vy <= TERMINAL_VELOCITY
      ensures fireTimer == (if old(fireTimer) > 0 then old(fireTimer) - 1 else old(fireTimer))
    {
      var pre := Fall(BodyOf());
      var b := ResolveEntityVsTileMap(pre, m);
      x, y, vx, vy, grounded := b.x, b.y, b.vx, b.vy, b.grounded;
      if grounded && state == Hurt {
        vx := vx * 0.8;
      }
      TickFireTimer();
    }

    /** The hurt and flash timers count down; the end of the hurt time returns to patrol. */
    method TickHurtTimers()
      requires Valid() && state != Dead
      modifies this`hurtTimer, this`flashTimer, this`state
      ensures Valid() && state != Dead
      ensures hurtTimer == (if old(hurtTimer) > 0 then old(hurtTimer) - 1 else 0)
      ensures flashTimer == (if old(flashTimer) > 0 then old(flashTimer) - 1 else 0)
      ensures state == (if old(hurtTimer) == 1 then Patrol else old(state))
      ensures BodyOf() == old(BodyOf()) && MindOf() == old(MindOf())
    {
      if hurtTimer > 0 {
        hurtTimer := hurtTimer - 1;
        if hurtTimer <= 0 {
          state := Patrol;
        }
      }
      if flashTimer > 0 {
        flashTimer := flashTimer - 1;
      }
    }

    /** A positive fire timer counts down by one frame. */
    method TickFireTimer()
      requires Valid()
      modifies this`fireTimer
      ensures Valid()
      ensures fireTimer == (if old(fireTimer) > 0 then old(fireTimer) - 1 else old(fireTimer))
    {
      if fireTimer > 0 {
        fireTimer := fireTimer - 1;
      }
    }
  }

}
