// The final boss, Costi: three phases chosen by remaining health, a
// cooldown between actions, and six actions (charge, ground slam, jump
// attack in phase 3, and three thrown projectiles). Its outbound
// requests (a projectile, a shockwave) are fields the game drains.
//
// `Math.random` is replaced by parameters: `roll` for the action choice,
// `chance` for the hurt-dialogue coin and `pick` for the taunt index;
// `sqrt` is the host's square root.

module Bosses {
  import opened Wrappers
  import opened MathUtil
  import opened Entities
  import opened TileMaps
  import opened Collision
  import opened Projectiles

  const BOSS_WIDTH: real := 64.0
  const BOSS_HEIGHT: real := 80.0
  const BOSS_MAX_HP: real := 500.0
  const BOSS_DAMAGE: int := 30
  const BOSS_SCORE: int := 5000
  /** The boss clamps its vertical speed to 20 rather than the shared terminal velocity. */
  const BOSS_MAX_FALL: real := 20.0
  const BOSS_GRAVITY: real := 0.5
  const CHARGE_FRAMES: int := 45
  const SLAM_FRAMES: int := 60
  const JUMP_ATTACK_FRAMES: int := 80
  const APPROACH_DISTANCE: real := 80.0
  const APPROACH_SPEED: real := 1.5
  const SHOCKWAVE_DAMAGE: int := 20

  const OPENING_LINE: string := "You dare challenge ME?!"
  const DEFEAT_LINE: string := "Impossible... you beat me... I need more protein..."
  const ENRAGE_LINE: string := "NOW I'M ANGRY!!! NO MORE GAMES!"
  const STEP_UP_LINE: string := "Not bad... let me step it up!"
  const SHAKE_LINE: string := "Have a protein shake!"

  const CHARGE_TAUNTS: seq<string> :=
    ["CHARGE!", "INCOMING!", "CAN'T DODGE THIS!", "OUT OF MY WAY!", "MOVE IT!", "FULL SPEED!"]
  const SLAM_TAUNTS: seq<string> :=
    ["GROUND SLAM!", "FEEL THE EARTH SHAKE!", "DOWN YOU GO!", "EARTHQUAKE!", "SMASH!"]
  const THROW_TAUNTS: seq<string> :=
    ["Catch this!", "Heads up!", "Special delivery!", "Eat this dumbbell!", "Think fast!",
     "Gym equipment incoming!"]
  const JUMP_TAUNTS: seq<string> :=
    ["CAN'T ESCAPE!", "NOWHERE TO HIDE!", "UP AND OVER!", "FLYING ELBOW!", "AIR TIME!"]
  const HURT_TAUNTS: seq<string> :=
    ["Is that all?!", "Lucky shot!", "That tickled!", "You'll pay for that!", "Not bad, kid...",
     "OOF!", "Barely felt it!"]
  const OIL_TAUNTS: seq<string> :=
    ["DoTerra Lavender Blast!", "DoTerra time!", "Relax... breathe it in!", "Aromatherapy attack!",
     "This will calm you down!", "Essential oils incoming!"]

  datatype BossState = Idle | Dead

  /** A ground-slam request: centre, radius and damage. */
  datatype Shockwave = Shockwave(x: real, y: real, radius: real, damage: int)

  /** What the boss does when its action cooldown has run out. */
  datatype Action = Charge | Slam | JumpAttack | ThrowDumbbell | ThrowShake | ThrowOil

  /** `_randomDialogue`: an entry of the pool, indexed by `pick`. */
  function Taunt(pool: seq<string>, pick: nat): (s: string)
    requires |pool| > 0
    ensures s in pool
  {
    pool[pick % |pool|]
  }

  /**
   * The action table of `_updateAI`: phase 1 charges, throws dumbbells
   * or oil; phase 2 adds the slam and protein shake; phase 3 (any
   * phase above 2) swaps the shake for the jump attack.
   */
  function ChooseAction(phase: int, roll: real): (a: Action)
    ensures roll < 0.2 ==> a == Charge
    ensures a == Charge <==> roll < (if phase == 1 then 0.4 else 0.2)
    ensures a == Slam ==> phase != 1
    ensures a == ThrowShake <==> phase == 2 && 0.4 <= roll < 0.6
    ensures a == JumpAttack <==> phase != 1 && phase != 2 && 0.35 <= roll < 0.5
    ensures a == ThrowDumbbell ==> roll >= 0.4
    ensures phase == 1 ==> a == Charge || a == ThrowDumbbell || a == ThrowOil
  {
    if phase == 1 then
      if roll < 0.4 then Charge else if roll < 0.75 then ThrowDumbbell else ThrowOil
    else if phase == 2 then
      if roll < 0.2 then Charge else if roll < 0.4 then Slam else if roll < 0.6 then ThrowShake
      else if roll < 0.8 then ThrowOil else ThrowDumbbell
    else
      if roll < 0.2 then Charge else if roll < 0.35 then Slam else if roll < 0.5 then JumpAttack
      else if roll < 0.7 then ThrowOil else ThrowDumbbell
  }

  /** Every action of a phase is reachable: each has a roll in [0, 1) that picks it. */
  lemma PhaseRepertoire()
    ensures ChooseAction(1, 0.0) == Charge && ChooseAction(1, 0.5) == ThrowDumbbell
    ensures ChooseAction(1, 0.9) == ThrowOil
    ensures ChooseAction(2, 0.0) == Charge && ChooseAction(2, 0.3) == Slam
    ensures ChooseAction(2, 0.5) == ThrowShake && ChooseAction(2, 0.7) == ThrowOil
    ensures ChooseAction(2, 0.9) == ThrowDumbbell
    ensures ChooseAction(3, 0.0) == Charge && ChooseAction(3, 0.3) == Slam
    ensures ChooseAction(3, 0.4) == JumpAttack && ChooseAction(3, 0.6) == ThrowOil
    ensures ChooseAction(3, 0.9) == ThrowDumbbell
  {
  }

  /** The charge speed: 7 px/frame when enraged, 5 otherwise. */
  function ChargeSpeed(phase: int): (s: real)
    ensures s == (if phase >= 3 then 7.0 else 5.0)
    ensures s > 0.0
  {
    if phase >= 3 then 7.0 else 5.0
  }

  /** The slam shockwave's radius grows by 40 per phase from 120. */
  function ShockwaveRadius(phase: int): (r: real)
    ensures phase == 1 ==> r == 120.0
    ensures phase == 2 ==> r == 160.0
    ensures phase == 3 ==> r == 200.0
  {
    120.0 + (phase - 1) as real * 40.0
  }

  /** Walking towards the player at 1.5 px/frame while more than 80px away, standing otherwise. */
  function ApproachVx(dist: real): (v: real)
    ensures dist > APPROACH_DISTANCE ==> v == APPROACH_SPEED
    ensures dist < -APPROACH_DISTANCE ==> v == -APPROACH_SPEED
    ensures -APPROACH_DISTANCE <= dist <= APPROACH_DISTANCE ==> v == 0.0
  {
    if Abs(dist) > APPROACH_DISTANCE then Sign(dist) as real * APPROACH_SPEED else 0.0
  }

  /** A later phase never has a smaller shockwave. */
  lemma ShockwaveGrows(p: int, q: int)
    requires p <= q
    ensures ShockwaveRadius(p) <= ShockwaveRadius(q)
  {
  }

  /** The jump attack's horizontal speed: 5% of the distance, at most 6 either way, towards the target. */
  function JumpVx(dx: real): (v: real)
    ensures -6.0 <= v <= 6.0
    ensures Sign(v) == Sign(dx)
    ensures -120.0 <= dx <= 120.0 ==> v == dx * 0.05
  {
    Clamp(dx * 0.05, -6.0, 6.0)
  }

  /** `Math.sqrt(dx * dx + dy * dy) || 1`: the distance to the target, with 0 read as 1. */
  function ThrowDistance(sqrt: real -> real, dx: real, dy: real): (r: real)
    ensures r != 0.0
    ensures sqrt(dx * dx + dy * dy) != 0.0 ==> r == sqrt(dx * dx + dy * dy)
  {
    var d := sqrt(dx * dx + dy * dy);
    if d == 0.0 then 1.0 else d
  }

  /** An aimed throw at `speed`: each component of the direction divided by the distance. */
  function AimedComponent(d: real, dist: real, speed: real): real
    requires dist != 0.0
  {
    d / dist * speed
  }

  /**
   * An aimed throw flies towards the target on each axis: a component
   * has the sign of the offset along that axis (distance and speed positive).
   */
  lemma AimedTowards(d: real, dist: real, speed: real)
    requires dist > 0.0 && speed > 0.0
    ensures Sign(AimedComponent(d, dist, speed)) == Sign(d)
  {
  }

  /** The dumbbell: 24x12, 20 damage, 120 frames, falls at 0.15. */
  function DumbbellConfig(): (c: ProjectileConfig)
    ensures WithDefaults(c) == c
    ensures c.width == 24.0 && c.height == 12.0 && c.damage == 20 && c.life == 120
    ensures c.gravity == 0.15 && !c.fromPlayer && c.stun == 0
  {
    ProjectileConfig(24.0, 12.0, 20, "#808080", 120, false, 0.15, 0)
  }

  /** The protein shake: 12x16, 15 damage, 150 frames, flies straight. */
  function ShakeConfig(): (c: ProjectileConfig)
    ensures WithDefaults(c) == c
    ensures c.width == 12.0 && c.height == 16.0 && c.damage == 15 && c.life == 150
    ensures c.gravity == 0.0 && !c.fromPlayer && c.stun == 0
  {
    ProjectileConfig(12.0, 16.0, 15, "#00FF88", 150, false, 0.0, 0)
  }

  /** The essential-oil bottle: 14x14, 10 damage, 140 frames, flies straight and stuns for 12 frames. */
  function OilConfig(): (c: ProjectileConfig)
    ensures WithDefaults(c) == c
    ensures c.width == 14.0 && c.height == 14.0 && c.damage == 10 && c.life == 140
    ensures c.gravity == 0.0 && !c.fromPlayer && c.stun == 12
  {
    ProjectileConfig(14.0, 14.0, 10, "#7B4FBF", 140, false, 0.0, 12)
  }

  /** Gravity, the boss's own ±20 clamp, and `grounded` cleared before the tile pass. */
  function BossFall(b: Body): (r: Body)
    ensures -BOSS_MAX_FALL <= r.vy <= BOSS_MAX_FALL && !r.grounded
    ensures r == b.(vy := r.vy, grounded := false)
    ensures -BOSS_MAX_FALL <= b.vy + BOSS_GRAVITY <= BOSS_MAX_FALL ==> r.vy == b.vy + BOSS_GRAVITY
  {
    b.(vy := Clamp(b.vy + BOSS_GRAVITY, -BOSS_MAX_FALL, BOSS_MAX_FALL), grounded := false)
  }

  /**
   * The fields `_updateAI` reads and writes, as a value: facing,
   * velocities, the cooldown counter, the three attacks' state and the
   * shockwave request.
   */
  datatype Stance = Stance(facing: Facing, vx: real, vy: real, actionTimer: nat,
                           charging: bool, chargeTimer: int, slamming: bool, slamTimer: int, slamJumped: bool,
                           jumping: bool, jumpTimer: int, shockwave: Option<Shockwave>)

  /** At most one attack is in progress. */
  predicate OneAttack(s: Stance)
  {
    !(s.charging && s.slamming) && !(s.charging && s.jumping) && !(s.slamming && s.jumping)
  }

  /** A dialogue line and the number of frames it shows. */
  datatype Line = Line(text: string, frames: nat)

  /** One frame's decision: the new stance, the action started (if any) and the line it speaks. */
  datatype Plan = Plan(stance: Stance, act: Option<Action>, line: Option<Line>)

  /** `update`'s facing step: towards the player, unless charging or slamming. */
  function Turned(s: Stance, cx: real, playerCX: real): Stance
  {
    if !s.charging && !s.slamming then s.(facing := if playerCX > cx then 1 else -1) else s
  }

  /** `_doCharge`: run in the facing direction at the phase's speed; stop dead when the timer runs out. */
  function Charged(s: Stance, phase: int): Stance
  {
    var t := s.chargeTimer - 1;
    if t <= 0 then s.(chargeTimer := t, charging := false, vx := 0.0)
    else s.(chargeTimer := t, vx := Toward(s.facing, ChargeSpeed(phase)))
  }

  /**
   * `_doSlam`: the first step leaps; after that, being on the ground
   * requests a shockwave at (`cx`, `bottom`) and ends the slam, and the
   * slam also ends when its timer runs out.
   */
  function Slammed(s: Stance, phase: int, cx: real, bottom: real, grounded: bool): Stance
  {
    if !s.slamJumped then s.(vy := -14.0, vx := 0.0, slamJumped := true, slamTimer := SLAM_FRAMES)
    else
      var s' := if grounded then
                  s.(shockwave := Some(Shockwave(cx, bottom, ShockwaveRadius(phase), SHOCKWAVE_DAMAGE)),
                     slamming := false, vx := 0.0)
                else s;
      var t := s.slamTimer - 1;
      s'.(slamTimer := t, slamming := s'.slamming && t > 0)
  }

  /** `_doJumpAttack`: the jump ends on landing once 20 frames have passed, or when its timer runs out. */
  function Jumped(s: Stance, grounded: bool): Stance
  {
    var t := s.jumpTimer - 1;
    var landed := grounded && t < 60;
    s.(jumpTimer := t, jumping := s.jumping && !landed && t > 0, vx := if landed then 0.0 else s.vx)
  }

  /** The step of the attack in progress: the charge, else the slam, else the jump. */
  function Continued(s: Stance, phase: int, cx: real, bottom: real, grounded: bool): Stance
  {
    if s.charging then Charged(s, phase)
    else if s.slamming then Slammed(s, phase, cx, bottom, grounded)
    else Jumped(s, grounded)
  }

  /** The stance an action starts in: an attack's state and timer (and the jump's leap); a throw changes none. */
  function Started(s: Stance, a: Action, cx: real, playerCX: real): Stance
  {
    match a
    case Charge => s.(charging := true, chargeTimer := CHARGE_FRAMES)
    case Slam => s.(slamming := true, slamTimer := SLAM_FRAMES, slamJumped := false)
    case JumpAttack => s.(jumping := true, jumpTimer := JUMP_ATTACK_FRAMES, vy := -16.0, vx := JumpVx(playerCX - cx))
    case _ => s
  }

  /** The line an action speaks: a taunt of its pool for 30 frames, the shake line, or an oil taunt for 40. */
  function Spoken(a: Action, pick: nat): Line
  {
    match a
    case Charge => Line(Taunt(CHARGE_TAUNTS, pick), 30)
    case Slam => Line(Taunt(SLAM_TAUNTS, pick), 30)
    case JumpAttack => Line(Taunt(JUMP_TAUNTS, pick), 30)
    case ThrowDumbbell => Line(Taunt(THROW_TAUNTS, pick), 30)
    case ThrowShake => Line(SHAKE_LINE, 30)
    case ThrowOil => Line(Taunt(OIL_TAUNTS, pick), 40)
  }

  /** The started action, if any, is one of the three throws. */
  predicate Throws(act: Option<Action>)
  {
    act == Some(ThrowDumbbell) || act == Some(ThrowShake) || act == Some(ThrowOil)
  }

  /**
   * `_updateAI` on a value: an attack in progress runs its step;
   * otherwise the cooldown counter advances, and the boss walks towards
   * the player until the counter reaches `cooldown`, when it resets and
   * `ChooseAction(phase, roll)` starts and speaks its line.
   */
  function Decide(s: Stance, phase: int, cooldown: nat, cx: real, bottom: real, grounded: bool,
                  playerCX: real, roll: real, pick: nat): (r: Plan)
    ensures var busy := s.charging || s.slamming || s.jumping;
      var ready := !busy && s.actionTimer + 1 >= cooldown;
      r.act == (if ready then Some(ChooseAction(phase, roll)) else None) &&
      r.stance.actionTimer == (if busy then s.actionTimer else if ready then 0 else s.actionTimer + 1) &&
      (!busy && !ready ==> r.stance.vx == ApproachVx(playerCX - cx) && r.stance.vy == s.vy)
    ensures r.line == (if r.act.Some? then Some(Spoken(r.act.value, pick)) else None)
    ensures OneAttack(s) ==> OneAttack(r.stance)
    ensures r.act == Some(Charge) ==> r.stance.charging && r.stance.chargeTimer == CHARGE_FRAMES
    ensures r.act == Some(Slam) ==> r.stance.slamming && !r.stance.slamJumped && r.stance.slamTimer == SLAM_FRAMES
    ensures r.act == Some(JumpAttack) ==>
      r.stance.jumping && r.stance.jumpTimer == JUMP_ATTACK_FRAMES && r.stance.vy == -16.0
    ensures Throws(r.act) ==> r.stance == s.(actionTimer := 0)
    ensures r.stance.facing == s.facing
  {
    if s.charging || s.slamming || s.jumping then
      Plan(Continued(s, phase, cx, bottom, grounded), None, None)
    else if s.actionTimer + 1 < cooldown then
      Plan(s.(actionTimer := s.actionTimer + 1, vx := ApproachVx(playerCX - cx)), None, None)
    else
      var a := ChooseAction(phase, roll);
      Plan(Started(s.(actionTimer := 0), a, cx, playerCX), Some(a), Some(Spoken(a, pick)))
  }

  /** A projectile's launch state, as a value: position, velocity, size, damage, life, gravity, owner, stun. */
  datatype Shot = Shot(x: real, y: real, vx: real, vy: real, width: real, height: real, damage: int,
                       life: int, gravity: real, fromPlayer: bool, stun: int, dead: bool)

  ghost function ShotOf(p: Projectile): Shot reads p
  {
    Shot(p.x, p.y, p.vx, p.vy, p.width, p.height, p.damage, p.life, p.gravity, p.fromPlayer, p.stun, p.dead)
  }

  /** A dumbbell thrown from (`cx`, `cy` - 10) level towards the player at 4 + phase px/frame, with a -3 lob. */
  function DumbbellShot(cx: real, cy: real, playerCX: real, phase: int): Shot
  {
    Shot(cx, cy - 10.0, Sign(playerCX - cx) as real * (4 + phase) as real, -3.0, 24.0, 12.0, 20, 120, 0.15,
         false, 0, false)
  }

  /** A protein shake thrown from (`cx`, `cy`) at the player's centre at 5 px/frame. */
  function ShakeShot(cx: real, cy: real, playerCX: real, playerCY: real, sqrt: real -> real): Shot
  {
    var dx := playerCX - cx;
    var dy := playerCY - cy;
    var dist := ThrowDistance(sqrt, dx, dy);
    Shot(cx, cy, AimedComponent(dx, dist, 5.0), AimedComponent(dy, dist, 5.0), 12.0, 16.0, 15, 150, 0.0,
         false, 0, false)
  }

  /** An oil bottle thrown from (`cx`, `cy` - 10) at the player's centre at 4.5 px/frame; it stuns for 12 frames. */
  function OilShot(cx: real, cy: real, playerCX: real, playerCY: real, sqrt: real -> real): Shot
  {
    var dx := playerCX - cx;
    var dy := playerCY - cy;
    var dist := ThrowDistance(sqrt, dx, dy);
    Shot(cx, cy - 10.0, AimedComponent(dx, dist, 4.5), AimedComponent(dy, dist, 4.5), 14.0, 14.0, 10, 140, 0.0,
         false, 12, false)
  }

  /** The projectile a throw `a` from centre (`cx`, `cy`) launches. */
  ghost predicate Thrown(p: Projectile?, a: Action, cx: real, cy: real, playerCX: real, playerCY: real,
                         phase: int, sqrt: real -> real)
    reads p
  {
    p != null &&
    match a
    case ThrowDumbbell => ShotOf(p) == DumbbellShot(cx, cy, playerCX, phase)
    case ThrowShake => ShotOf(p) == ShakeShot(cx, cy, playerCX, playerCY, sqrt)
    case ThrowOil => ShotOf(p) == OilShot(cx, cy, playerCX, playerCY, sqrt)
    case _ => false
  }

  /** The lowest phase a health value calls for: 3 at or below 30% of 500, 2 at or below 60%. */
  function MinPhase(hp: real): (p: int)
    ensures 1 <= p <= 3
  {
    if hp <= 0.3 * BOSS_MAX_HP then 3 else if hp <= 0.6 * BOSS_MAX_HP then 2 else 1
  }

  /**
   * The phase a hit leaves the boss in (`takeDamage`'s transitions):
   * enraged once health is at most 30% of the maximum, stepped up once at
   * most 60%; a phase never goes back.
   */
  function NextPhase(phase: int, hp: real): (p: int)
    ensures p >= phase
    ensures hp <= 150.0 ==> p >= 3
    ensures hp <= 300.0 ==> p >= 2
    ensures hp > 300.0 ==> p == phase
    ensures 1 <= phase <= 3 ==> 1 <= p <= 3
  {
    var pct := hp / BOSS_MAX_HP;
    if pct <= 0.3 && phase < 3 then 3
    else if pct <= 0.6 && phase < 2 then 2
    else phase
  }

  /** From any phase, a hit lands on the larger of the current phase and the one health calls for. */
  lemma NextPhaseIsMax(phase: int, hp: real)
    requires 1 <= phase <= 3
    ensures NextPhase(phase, hp) == if phase >= MinPhase(hp) then phase else MinPhase(hp)
  {
  }

  /** Less health never means a lower phase. */
  lemma NextPhaseMonotone(phase: int, hp1: real, hp2: real)
    requires hp1 <= hp2
    ensures NextPhase(phase, hp1) >= NextPhase(phase, hp2)
  {
  }

  class BossCosti {
    var x: real
    var y: real
    const width: real := BOSS_WIDTH
    const height: real := BOSS_HEIGHT
    var vx: real
    var vy: real
    var dead: bool
    var grounded: bool

    const maxHp: real := BOSS_MAX_HP
    var hp: real
    const damage: int := BOSS_DAMAGE
    const scoreValue: int := BOSS_SCORE
    var facing: Facing

    var state: BossState
    var activated: bool
    var phase: int

    var actionTimer: nat
    var actionCooldown: nat
    var hurtTimer: nat
    var flashTimer: nat
    var invincibleTimer: nat
    var animTimer: real

    var charging: bool
    var chargeTimer: int
    var slamming: bool
    var slamTimer: int
    var slamJumped: bool
    var jumping: bool
    var jumpTimer: int

    // Outbound requests, drained by the game each frame.
    var pendingProjectile: Projectile?
    var pendingShockwave: Option<Shockwave>

    var dialogueTimer: nat
    var dialogue: string

    /**
     * Health is never negative and the phase matches it (at most 30% is
     * phase 3, at most 60% at least phase 2); `dead` is the DEAD state;
     * at most one attack is in progress.
     */
    ghost predicate Valid()
      reads this`hp, this`phase, this`dead, this`state, this`charging, this`slamming, this`jumping
    {
      0.0 <= hp && MinPhase(hp) <= phase <= 3 &&
      (dead <==> state == Dead) &&
      !(charging && slamming) && !(charging && jumping) && !(slamming && jumping)
    }

    constructor (x0: real, y0: real)
      ensures Valid()
      ensures x == x0 && y == y0 && vx == 0.0 && vy == 0.0 && !dead && !grounded
      ensures hp == maxHp == BOSS_MAX_HP && facing == -1 && state == Idle && !activated
      ensures phase == 1 && actionTimer == 0 && actionCooldown == 90
      ensures hurtTimer == 0 && flashTimer == 0 && invincibleTimer == 0 && animTimer == 0.0
      ensures !charging && chargeTimer == 0 && !slamming && slamTimer == 0 && !slamJumped
      ensures !jumping && jumpTimer == 0
      ensures pendingProjectile == null && pendingShockwave.None?
      ensures dialogueTimer == 0 && dialogue == ""
    {
      x, y, vx, vy, dead, grounded := x0, y0, 0.0, 0.0, false, false;
      hp, facing, state, activated, phase := BOSS_MAX_HP, -1, Idle, false, 1;
      actionTimer, actionCooldown, hurtTimer, flashTimer := 0, 90, 0, 0;
      invincibleTimer, animTimer := 0, 0.0;
      charging, chargeTimer, slamming, slamTimer, slamJumped := false, 0, false, 0, false;
      jumping, jumpTimer := false, 0;
      pendingProjectile, pendingShockwave := null, None;
      dialogueTimer, dialogue := 0, "";
    }

    function GetBounds(): Rect reads this { Rect(x, y, width, height) }
    function CenterX(): real reads this`x { Center(x, width) }
    function CenterY(): real reads this`y { Center(y, height) }

    function BodyOf(): Body reads this
    {
      Body(x, y, width, height, vx, vy, grounded)
    }

    function StanceOf(): Stance reads this
    {
      Stance(facing, vx, vy, actionTimer, charging, chargeTimer, slamming, slamTimer, slamJumped,
             jumping, jumpTimer, pendingShockwave)
    }

    /** `_updateAI`'s plan from the current state. */
    function AIPlan(playerCX: real, roll: real, pick: nat): Plan
      reads this`x, this`y, this`grounded, this`phase, this`actionCooldown,
            this`facing, this`vx, this`vy, this`actionTimer, this`charging, this`chargeTimer, this`slamming,
            this`slamTimer, this`slamJumped, this`jumping, this`jumpTimer, this`pendingShockwave
    {
      var s := Stance(facing, vx, vy, actionTimer, charging, chargeTimer, slamming, slamTimer, slamJumped,
                      jumping, jumpTimer, pendingShockwave);
      Decide(s, phase, actionCooldown, CenterX(), y + height, grounded, playerCX, roll, pick)
    }

    /** This frame's plan: the facing step, then `_updateAI`, from the current state. */
    function NextPlan(playerCX: real, roll: real, pick: nat): Plan
      reads this`x, this`y, this`grounded, this`phase, this`actionCooldown,
            this`facing, this`vx, this`vy, this`actionTimer, this`charging, this`chargeTimer, this`slamming,
            this`slamTimer, this`slamJumped, this`jumping, this`jumpTimer, this`pendingShockwave
    {
      var s := Stance(facing, vx, vy, actionTimer, charging, chargeTimer, slamming, slamTimer, slamJumped,
                      jumping, jumpTimer, pendingShockwave);
      Decide(Turned(s, CenterX(), playerCX), phase, actionCooldown, CenterX(), y + height, grounded,
             playerCX, roll, pick)
    }

    /** The stance fields other than the velocities hold the values of `s`. */
    ghost predicate Poised(s: Stance)
      reads this`facing, this`actionTimer, this`charging, this`chargeTimer, this`slamming, this`slamTimer,
            this`slamJumped, this`jumping, this`jumpTimer, this`pendingShockwave
    {
      facing == s.facing && actionTimer == s.actionTimer && charging == s.charging &&
      chargeTimer == s.chargeTimer && slamming == s.slamming && slamTimer == s.slamTimer &&
      slamJumped == s.slamJumped && jumping == s.jumping && jumpTimer == s.jumpTimer &&
      pendingShockwave == s.shockwave
    }

    /**
     * Plan `pl` carried out, velocities aside: its stance, its line (or the
     * line `d0` shown for `dt0` frames), and a new projectile thrown from
     * (`cx`, `cy`) exactly when it starts a throw (`p0` is the request before).
     */
    ghost predicate Follows(pl: Plan, p0: Projectile?, d0: string, dt0: nat, cx: real, cy: real,
                            playerCX: real, playerCY: real, sqrt: real -> real)
      reads this`facing, this`actionTimer, this`charging, this`chargeTimer, this`slamming, this`slamTimer,
            this`slamJumped, this`jumping, this`jumpTimer, this`pendingShockwave, this`phase,
            this`dialogue, this`dialogueTimer, this`pendingProjectile, pendingProjectile
    {
      Poised(pl.stance) &&
      (pl.line.Some? ==> dialogue == pl.line.value.text && dialogueTimer == pl.line.value.frames) &&
      (pl.line.None? ==> dialogue == d0 && dialogueTimer == dt0) &&
      (Throws(pl.act) ==>
         pendingProjectile != p0 && Thrown(pendingProjectile, pl.act.value, cx, cy, playerCX, playerCY, phase, sqrt)) &&
      (!Throws(pl.act) ==> pendingProjectile == p0)
    }

    /** Right after the AI: the velocities of plan `pl`, and the rest carried out from the current centre. */
    ghost predicate Decided(pl: Plan, p0: Projectile?, d0: string, dt0: nat, playerCX: real, playerCY: real,
                            sqrt: real -> real)
      reads this, pendingProjectile
    {
      vx == pl.stance.vx && vy == pl.stance.vy &&
      Follows(pl, p0, d0, dt0, CenterX(), CenterY(), playerCX, playerCY, sqrt)
    }

    /** The fight starts, with the opening line shown for 120 frames. */
    method Activate()
      modifies this`activated, this`dialogue, this`dialogueTimer
      ensures activated && dialogue == OPENING_LINE && dialogueTimer == 120
    {
      activated := true;
      dialogue := OPENING_LINE;
      dialogueTimer := 120;
    }

    method Die()
      modifies this`dead, this`state, this`dialogue, this`dialogueTimer
      ensures dead && state == Dead
      ensures dialogue == DEFEAT_LINE && dialogueTimer == 180
    {
      dead := true;
      state := Dead;
      dialogue := DEFEAT_LINE;
      dialogueTimer := 180;
    }

    /**
     * Ignored while dead or invincible. Otherwise health drops, the boss
     * flashes for 12 frames, is invincible for 15 and is pushed 2 px/frame
     * away from the source; a hurt taunt shows for 40 frames unless other
     * dialogue is up and `chance` is at least 0.3. Crossing 30% of the
     * maximum enrages it (phase 3, cooldown 40, invincible 60), crossing
     * 60% steps it up (phase 2, cooldown 60, invincible 60). At 0 health
     * it dies.
     */
    method TakeDamage(amount: real, sourceX: real, chance: real, pick: nat)
      requires Valid()
      modifies this`hp, this`flashTimer, this`invincibleTimer, this`vx, this`phase,
               this`actionCooldown, this`dialogue, this`dialogueTimer, this`dead, this`state
      ensures Valid()
      ensures old(dead) || old(invincibleTimer) > 0 ==> unchanged(this)
      ensures !old(dead) && old(invincibleTimer) == 0 ==>
        var left := old(hp) - amount;
        hp == (if left <= 0.0 then 0.0 else left) && phase == NextPhase(old(phase), left) &&
        dead == (left <= 0.0) && flashTimer == 12 &&
        vx == (if old(CenterX()) > sourceX then 2.0 else -2.0)
      ensures !old(dead) && old(invincibleTimer) == 0 && phase != old(phase) ==>
        invincibleTimer == 60 && actionCooldown == (if phase == 3 then 40 else 60) &&
        dialogueTimer == (if hp == 0.0 then 180 else 90) &&
        dialogue == (if hp == 0.0 then DEFEAT_LINE else if phase == 3 then ENRAGE_LINE else STEP_UP_LINE)
      ensures !old(dead) && old(invincibleTimer) == 0 && phase == old(phase) ==>
        invincibleTimer == 15 && actionCooldown == old(actionCooldown) &&
        dialogueTimer == (if hp == 0.0 then 180
                          else if old(dialogueTimer) == 0 || chance < 0.3 then 40 else old(dialogueTimer)) &&
        dialogue == (if hp == 0.0 then DEFEAT_LINE
                     else if old(dialogueTimer) == 0 || chance < 0.3 then Taunt(HURT_TAUNTS, pick) else old(dialogue))
    {
      if dead || invincibleTimer > 0 {
        return;
      }
      ApplyHit(amount, sourceX, chance, pick);
      Escalate();
      if hp <= 0.0 {
        hp := 0.0;
        Die();
      }
    }

    /** The hit itself: damage, flash, short invincibility, knockback and maybe a hurt taunt. */
    method ApplyHit(amount: real, sourceX: real, chance: real, pick: nat)
      modifies this`hp, this`flashTimer, this`invincibleTimer, this`vx, this`dialogue, this`dialogueTimer
      ensures hp == old(hp) - amount && flashTimer == 12 && invincibleTimer == 15
      ensures vx == (if CenterX() > sourceX then 2.0 else -2.0)
      ensures var talk := old(dialogueTimer) == 0 || chance < 0.3;
        dialogueTimer == (if talk then 40 else old(dialogueTimer)) &&
        (talk ==> dialogue == Taunt(HURT_TAUNTS, pick)) && (!talk ==> dialogue == old(dialogue))
    {
      hp := hp - amount;
      flashTimer := 12;
      invincibleTimer := 15;
      vx := if CenterX() > sourceX then 2.0 else -2.0;
      if dialogueTimer == 0 || chance < 0.3 {
        dialogue := Taunt(HURT_TAUNTS, pick);
        dialogueTimer := 40;
      }
    }

    /**
     * The phase transitions of a hit: at most 30% health enrages (phase 3,
     * cooldown 40), at most 60% steps up (phase 2, cooldown 60); either
     * announces itself for 90 frames and grants 60 invincible frames.
     */
    method Escalate()
      modifies this`phase, this`dialogue, this`dialogueTimer, this`actionCooldown, this`invincibleTimer
      ensures phase == NextPhase(old(phase), hp)
      ensures phase != old(phase) ==>
        dialogue == (if phase == 3 then ENRAGE_LINE else STEP_UP_LINE) &&
        dialogueTimer == 90 && invincibleTimer == 60 && actionCooldown == (if phase == 3 then 40 else 60)
      ensures phase == old(phase) ==>
        dialogue == old(dialogue) && dialogueTimer == old(dialogueTimer) &&
        invincibleTimer == old(invincibleTimer) && actionCooldown == old(actionCooldown)
    {
      var pct := hp / BOSS_MAX_HP;
      if pct <= 0.3 && phase < 3 {
        phase := 3;
        dialogue := ENRAGE_LINE;
        dialogueTimer := 90;
        actionCooldown := 40;
        invincibleTimer := 60;
      } else if pct <= 0.6 && phase < 2 {
        phase := 2;
        dialogue := STEP_UP_LINE;
        dialogueTimer := 90;
        actionCooldown := 60;
        invincibleTimer := 60;
      }
    }

    /**
     * One frame. Nothing happens before activation or after death.
     * Otherwise the animation clock advances, the flash, invincibility,
     * dialogue and hurt timers count down, the boss turns to the player
     * unless charging or slamming, the AI runs, gravity is applied and
     * clamped to ±20, and the body is resolved against the tiles.
     * `act` is the action started this frame, if any.
     */
    method Update(m: TileMap, playerCX: real, playerCY: real, roll: real, pick: nat,
                  sqrt: real -> real) returns (act: Option<Action>)
      requires Valid() && WellFormed(m)
      modifies this
      ensures Valid()
      ensures !old(activated) || old(dead) ==> unchanged(this) && act.None?
      ensures old(activated) && !old(dead) ==>
        !dead && hp == old(hp) && phase == old(phase) && activated &&
        -BOSS_MAX_FALL <= vy <= BOSS_MAX_FALL && animTimer == old(animTimer) + 0.15
      ensures act.Some? ==> act == Some(ChooseAction(phase, roll)) && actionTimer == 0
      ensures pendingProjectile != old(pendingProjectile) ==> fresh(pendingProjectile)
      ensures old(activated) && !old(dead) ==>
        flashTimer == (if old(flashTimer) > 0 then old(flashTimer) - 1 else 0) &&
        invincibleTimer == (if old(invincibleTimer) > 0 then old(invincibleTimer) - 1 else 0) &&
        hurtTimer == (if old(hurtTimer) > 0 then old(hurtTimer) - 1 else 0) &&
        act == old(NextPlan(playerCX, roll, pick)).act
      ensures old(activated) && !old(dead) && !old(charging) && !old(slamming) ==>
        facing == (if playerCX > old(CenterX()) then 1 else -1)
      ensures old(activated) && !old(dead) && (old(charging) || old(slamming)) ==> facing == old(facing)
    {
      if !activated || dead {
        return None;
      }
      act := ActiveFrame(m, playerCX, playerCY, roll, pick, sqrt);
    }

    /** An active frame: the timers, then the facing step, the AI and the physics. */
    method ActiveFrame(m: TileMap, playerCX: real, playerCY: real, roll: real, pick: nat, sqrt: real -> real)
      returns (act: Option<Action>)
      requires Valid() && WellFormed(m)
      modifies this`facing, this`vx, this`vy, this`actionTimer, this`charging, this`chargeTimer, this`slamming,
               this`slamTimer, this`slamJumped, this`jumping, this`jumpTimer, this`pendingProjectile,
               this`pendingShockwave, this`dialogue, this`dialogueTimer, this`x, this`y, this`grounded,
               this`animTimer, this`flashTimer, this`invincibleTimer, this`hurtTimer
      ensures Valid()
      ensures -BOSS_MAX_FALL <= vy <= BOSS_MAX_FALL && animTimer == old(animTimer) + 0.15
      ensures act.Some? ==> act == Some(ChooseAction(phase, roll)) && actionTimer == 0
      ensures pendingProjectile != old(pendingProjectile) ==> fresh(pendingProjectile)
      ensures flashTimer == (if old(flashTimer) > 0 then old(flashTimer) - 1 else 0)
      ensures invincibleTimer == (if old(invincibleTimer) > 0 then old(invincibleTimer) - 1 else 0)
      ensures hurtTimer == (if old(hurtTimer) > 0 then old(hurtTimer) - 1 else 0)
      ensures act == old(NextPlan(playerCX, roll, pick)).act
      ensures !old(charging) && !old(slamming) ==> facing == (if playerCX > old(CenterX()) then 1 else -1)
      ensures old(charging) || old(slamming) ==> facing == old(facing)
    {
      ghost var pl := NextPlan(playerCX, roll, pick);
      TickTimers();
      assert NextPlan(playerCX, roll, pick) == pl;
      act := ThinkFrame(m, playerCX, playerCY, roll, pick, sqrt);
    }

    /** The facing step and the AI, then the physics. */
    method ThinkFrame(m: TileMap, playerCX: real, playerCY: real, roll: real, pick: nat, sqrt: real -> real)
      returns (act: Option<Action>)
      requires Valid() && WellFormed(m)
      modifies this`facing, this`vx, this`vy, this`actionTimer, this`charging, this`chargeTimer, this`slamming,
               this`slamTimer, this`slamJumped, this`jumping, this`jumpTimer, this`pendingProjectile,
               this`pendingShockwave, this`dialogue, this`dialogueTimer, this`x, this`y, this`grounded
      ensures Valid()
      ensures -BOSS_MAX_FALL <= vy <= BOSS_MAX_FALL
      ensures act.Some? ==> act == Some(ChooseAction(phase, roll)) && actionTimer == 0
      ensures pendingProjectile != old(pendingProjectile) ==> fresh(pendingProjectile)
      ensures act == old(NextPlan(playerCX, roll, pick)).act
      ensures !old(charging) && !old(slamming) ==> facing == (if playerCX > old(CenterX()) then 1 else -1)
      ensures old(charging) || old(slamming) ==> facing == old(facing)
    {
      act := Think(playerCX, playerCY, roll, pick, sqrt);
      StepPhysics(m);
    }

    /** Turning to the player (unless charging or slamming), then the AI. */
    method Think(playerCX: real, playerCY: real, roll: real, pick: nat, sqrt: real -> real)
      returns (act: Option<Action>)
      requires Valid()
      modifies this`facing, this`vx, this`vy, this`actionTimer, this`charging, this`chargeTimer,
               this`slamming, this`slamTimer, this`slamJumped, this`jumping, this`jumpTimer,
               this`pendingProjectile, this`pendingShockwave, this`dialogue, this`dialogueTimer
      ensures Valid()
      ensures !old(charging) && !old(slamming) ==> facing == (if playerCX > CenterX() then 1 else -1)
      ensures old(charging) || old(slamming) ==> facing == old(facing)
      ensures act.Some? ==> act == Some(ChooseAction(phase, roll)) && actionTimer == 0
      ensures pendingProjectile != old(pendingProjectile) ==> fresh(pendingProjectile)
      ensures act == old(NextPlan(playerCX, roll, pick)).act
      ensures Decided(old(NextPlan(playerCX, roll, pick)), old(pendingProjectile), old(dialogue), old(dialogueTimer),
                      playerCX, playerCY, sqrt)
    {
      if !charging && !slamming {
        facing := if playerCX > CenterX() then 1 else -1;
      }
      assert AIPlan(playerCX, roll, pick) == old(NextPlan(playerCX, roll, pick));
      act := UpdateAI(playerCX, playerCY, roll, pick, sqrt);
    }

    /** The animation clock and the four countdown timers. */
    method TickTimers()
      requires Valid()
      modifies this`animTimer, this`flashTimer, this`invincibleTimer, this`dialogueTimer, this`hurtTimer
      ensures Valid()
      ensures animTimer == old(animTimer) + 0.15
      ensures flashTimer == (if old(flashTimer) > 0 then old(flashTimer) - 1 else 0)
      ensures invincibleTimer == (if old(invincibleTimer) > 0 then old(invincibleTimer) - 1 else 0)
      ensures dialogueTimer == (if old(dialogueTimer) > 0 then old(dialogueTimer) - 1 else 0)
      ensures hurtTimer == (if old(hurtTimer) > 0 then old(hurtTimer) - 1 else 0)
    {
      animTimer := animTimer + 0.15;
      if flashTimer > 0 { flashTimer := flashTimer - 1; }
      if invincibleTimer > 0 { invincibleTimer := invincibleTimer - 1; }
      if dialogueTimer > 0 { dialogueTimer := dialogueTimer - 1; }
      if hurtTimer > 0 { hurtTimer := hurtTimer - 1; }
    }

    /** Gravity with the ±20 clamp, then the tile resolver. */
    method StepPhysics(m: TileMap)
      requires Valid() && WellFormed(m)
      modifies this`x, this`y, this`vx, this`vy, this`grounded
      ensures Valid()
      ensures var r := ResolveSpec(BossFall(old(BodyOf())), m);
        x == r.x && y == r.y && vx == r.vx && vy == r.vy && grounded == r.grounded
      ensures -BOSS_MAX_FALL <= vy <= BOSS_MAX_FALL
    {
      var pre := BossFall(BodyOf());
      var b := ResolveEntityVsTileMap(pre, m);
      x, y, vx, vy, grounded := b.x, b.y, b.vx, b.vy, b.grounded;
    }

    /**
     * `_updateAI`: an attack in progress runs its step. Otherwise the
     * cooldown counter advances; before it reaches the cooldown the boss
     * walks towards a player more than 80px away (and stands still
     * otherwise); when it reaches it, the counter resets and the action
     * `ChooseAction(phase, roll)` starts.
     */
    method UpdateAI(playerCX: real, playerCY: real, roll: real, pick: nat, sqrt: real -> real)
      returns (act: Option<Action>)
      requires Valid()
      modifies this`vx, this`vy, this`actionTimer, this`charging, this`chargeTimer, this`slamming,
               this`slamTimer, this`slamJumped, this`jumping, this`jumpTimer,
               this`pendingProjectile, this`pendingShockwave, this`dialogue, this`dialogueTimer
      ensures Valid()
      ensures var busy := old(charging) || old(slamming) || old(jumping);
        var ready := !busy && old(actionTimer) + 1 >= actionCooldown;
        act == (if ready then Some(ChooseAction(phase, roll)) else None) &&
        actionTimer == (if busy then old(actionTimer) else if ready then 0 else old(actionTimer) + 1)
      ensures !old(charging) && !old(slamming) && !old(jumping) && old(actionTimer) + 1 < actionCooldown ==>
        vx == ApproachVx(playerCX - CenterX())
      ensures act == Some(Charge) ==> charging && chargeTimer == CHARGE_FRAMES
      ensures act == Some(Slam) ==> slamming && !slamJumped && slamTimer == SLAM_FRAMES
      ensures act == Some(JumpAttack) ==> jumping && jumpTimer == JUMP_ATTACK_FRAMES && vy == -16.0
      ensures pendingProjectile != old(pendingProjectile) ==> fresh(pendingProjectile)
      ensures act == old(AIPlan(playerCX, roll, pick)).act
      ensures Decided(old(AIPlan(playerCX, roll, pick)), old(pendingProjectile), old(dialogue), old(dialogueTimer),
                      playerCX, playerCY, sqrt)
    {
      if charging || slamming || jumping {
        ContinueAttack();
        return None;
      }
      act := Cooldown(playerCX, playerCY, roll, pick, sqrt);
    }

    /** `_updateAI` with no attack in progress: the cooldown counter, the approach, or the next action. */
    method Cooldown(playerCX: real, playerCY: real, roll: real, pick: nat, sqrt: real -> real)
      returns (act: Option<Action>)
      requires Valid() && !charging && !slamming && !jumping
      modifies this`vx, this`vy, this`actionTimer, this`charging, this`chargeTimer, this`slamming,
               this`slamTimer, this`slamJumped, this`jumping, this`jumpTimer,
               this`pendingProjectile, this`dialogue, this`dialogueTimer
      ensures Valid()
      ensures pendingProjectile != old(pendingProjectile) ==> fresh(pendingProjectile)
      ensures act == old(AIPlan(playerCX, roll, pick)).act
      ensures Decided(old(AIPlan(playerCX, roll, pick)), old(pendingProjectile), old(dialogue), old(dialogueTimer),
                      playerCX, playerCY, sqrt)
    {
      actionTimer := actionTimer + 1;
      if actionTimer < actionCooldown {
        vx := ApproachVx(playerCX - CenterX());
        return None;
      }
      actionTimer := 0;
      var a := ChooseAction(phase, roll);
      StartAction(a, playerCX, playerCY, pick, sqrt);
      return Some(a);
    }

    /** The step of the attack in progress: charge, else slam, else jump. */
    method ContinueAttack()
      requires Valid() && (charging || slamming || jumping)
      modifies this`vx, this`vy, this`chargeTimer, this`charging, this`slamJumped, this`slamTimer,
               this`slamming, this`pendingShockwave, this`jumpTimer, this`jumping
      ensures Valid()
      ensures old(charging) ==>
        chargeTimer == old(chargeTimer) - 1 && charging == (chargeTimer > 0) &&
        slamTimer == old(slamTimer) && jumpTimer == old(jumpTimer) && vy == old(vy)
      ensures old(slamming) ==>
        chargeTimer == old(chargeTimer) && jumpTimer == old(jumpTimer) && !charging && !jumping &&
        (old(slamJumped) && grounded ==> pendingShockwave.Some? && !slamming)
      ensures old(jumping) ==>
        jumpTimer == old(jumpTimer) - 1 && chargeTimer == old(chargeTimer) &&
        slamTimer == old(slamTimer) && !charging && !slamming && vy == old(vy)
      ensures var s := Continued(old(StanceOf()), phase, CenterX(), y + height, grounded);
        vx == s.vx && vy == s.vy && Poised(s)
    {
      if charging {
        DoCharge();
      } else if slamming {
        DoSlam();
      } else {
        DoJumpAttack();
      }
    }

    /** Starts the chosen action; nothing was in progress. */
    method StartAction(a: Action, playerCX: real, playerCY: real, pick: nat, sqrt: real -> real)
      requires Valid() && !charging && !slamming && !jumping
      modifies this`vx, this`vy, this`charging, this`chargeTimer, this`slamming, this`slamTimer,
               this`slamJumped, this`jumping, this`jumpTimer, this`pendingProjectile,
               this`dialogue, this`dialogueTimer
      ensures Valid()
      ensures charging == (a == Charge) && slamming == (a == Slam) && jumping == (a == JumpAttack)
      ensures a == Charge ==> chargeTimer == CHARGE_FRAMES
      ensures a == Slam ==> !slamJumped && slamTimer == SLAM_FRAMES
      ensures a == JumpAttack ==> jumpTimer == JUMP_ATTACK_FRAMES && vy == -16.0
      ensures a.ThrowDumbbell? || a.ThrowShake? || a.ThrowOil? <==> pendingProjectile != old(pendingProjectile)
      ensures pendingProjectile != old(pendingProjectile) ==> fresh(pendingProjectile)
      ensures var s := Started(old(StanceOf()), a, CenterX(), playerCX);
        vx == s.vx && vy == s.vy && Poised(s)
      ensures dialogue == Spoken(a, pick).text && dialogueTimer == Spoken(a, pick).frames
      ensures Throws(Some(a)) ==> Thrown(pendingProjectile, a, CenterX(), CenterY(), playerCX, playerCY, phase, sqrt)
    {
      if Throws(Some(a)) {
        StartThrow(a, playerCX, playerCY, pick, sqrt);
      } else {
        StartAttack(a, playerCX, pick);
      }
    }

    /** Starts the charge, the slam or the jump attack. */
    method StartAttack(a: Action, playerCX: real, pick: nat)
      requires a == Charge || a == Slam || a == JumpAttack
      modifies this`vx, this`vy, this`charging, this`chargeTimer, this`slamming, this`slamTimer,
               this`slamJumped, this`jumping, this`jumpTimer, this`dialogue, this`dialogueTimer
      ensures var s := Started(old(StanceOf()), a, CenterX(), playerCX);
        vx == s.vx && vy == s.vy && Poised(s)
      ensures dialogue == Spoken(a, pick).text && dialogueTimer == Spoken(a, pick).frames
    {
      match a {
        case Charge => StartCharge(pick);
        case Slam => StartSlam(pick);
        case JumpAttack => StartJumpAttack(playerCX, pick);
      }
    }

    /** Throws a dumbbell, a protein shake or an oil bottle. */
    method StartThrow(a: Action, playerCX: real, playerCY: real, pick: nat, sqrt: real -> real)
      requires Throws(Some(a))
      modifies this`pendingProjectile, this`dialogue, this`dialogueTimer
      ensures fresh(pendingProjectile)
      ensures var s := Started(old(StanceOf()), a, CenterX(), playerCX);
        vx == s.vx && vy == s.vy && Poised(s)
      ensures Thrown(pendingProjectile, a, CenterX(), CenterY(), playerCX, playerCY, phase, sqrt)
      ensures dialogue == Spoken(a, pick).text && dialogueTimer == Spoken(a, pick).frames
    {
      match a {
        case ThrowDumbbell => ThrowDumbbellAt(playerCX, pick);
        case ThrowShake => ThrowShakeAt(playerCX, playerCY, sqrt);
        case ThrowOil => ThrowOilAt(playerCX, playerCY, pick, sqrt);
      }
    }

    method StartCharge(pick: nat)
      modifies this`charging, this`chargeTimer, this`dialogue, this`dialogueTimer
      ensures charging && chargeTimer == CHARGE_FRAMES
      ensures dialogue == Taunt(CHARGE_TAUNTS, pick) && dialogueTimer == 30
    {
      charging := true;
      chargeTimer := CHARGE_FRAMES;
      dialogue := Taunt(CHARGE_TAUNTS, pick);
      dialogueTimer := 30;
    }

    /** Run in the facing direction at the phase's charge speed; stop dead when the timer runs out. */
    method DoCharge()
      modifies this`vx, this`chargeTimer, this`charging
      ensures chargeTimer == old(chargeTimer) - 1
      ensures charging == (old(charging) && chargeTimer > 0)
      ensures vx == (if chargeTimer <= 0 then 0.0 else Toward(facing, ChargeSpeed(phase)))
    {
      vx := Toward(facing, ChargeSpeed(phase));
      chargeTimer := chargeTimer - 1;
      if chargeTimer <= 0 {
        charging := false;
        vx := 0.0;
      }
    }

    method StartSlam(pick: nat)
      modifies this`slamming, this`slamTimer, this`slamJumped, this`dialogue, this`dialogueTimer
      ensures slamming && slamTimer == SLAM_FRAMES && !slamJumped
      ensures dialogue == Taunt(SLAM_TAUNTS, pick) && dialogueTimer == 30
    {
      slamming := true;
      slamTimer := SLAM_FRAMES;
      slamJumped := false;
      dialogue := Taunt(SLAM_TAUNTS, pick);
      dialogueTimer := 30;
    }

    /**
     * The slam: the first step leaps (vy -14, vx 0) and restarts the
     * timer; after that, touching the ground (as of the last resolution)
     * requests a shockwave under the boss and ends the slam, and the slam
     * also ends when the timer runs out.
     */
    method DoSlam()
      modifies this`vx, this`vy, this`slamJumped, this`slamTimer, this`slamming, this`pendingShockwave
      ensures !old(slamJumped) ==>
        vy == -14.0 && vx == 0.0 && slamJumped && slamTimer == SLAM_FRAMES &&
        slamming == old(slamming) && pendingShockwave == old(pendingShockwave)
      ensures old(slamJumped) ==>
        slamJumped && vy == old(vy) && slamTimer == old(slamTimer) - 1 &&
        (grounded ==>
           pendingShockwave ==
             Some(Shockwave(CenterX(), y + height, ShockwaveRadius(phase), SHOCKWAVE_DAMAGE)) &&
           vx == 0.0 && !slamming) &&
        (!grounded ==>
           pendingShockwave == old(pendingShockwave) && vx == old(vx) &&
           slamming == (old(slamming) && slamTimer > 0))
    {
      if !slamJumped {
        vy := -14.0;
        vx := 0.0;
        slamJumped := true;
        slamTimer := SLAM_FRAMES;
        return;
      }
      if grounded && slamJumped {
        pendingShockwave := Some(Shockwave(CenterX(), y + height, ShockwaveRadius(phase), SHOCKWAVE_DAMAGE));
        slamming := false;
        vx := 0.0;
      }
      slamTimer := slamTimer - 1;
      if slamTimer <= 0 {
        slamming := false;
      }
    }

    /** Leap towards the player: vy -16 and `JumpVx` of the horizontal distance. */
    method StartJumpAttack(playerCX: real, pick: nat)
      modifies this`jumping, this`jumpTimer, this`vy, this`vx, this`dialogue, this`dialogueTimer
      ensures jumping && jumpTimer == JUMP_ATTACK_FRAMES && vy == -16.0
      ensures vx == JumpVx(playerCX - CenterX())
      ensures dialogue == Taunt(JUMP_TAUNTS, pick) && dialogueTimer == 30
    {
      var dx := playerCX - CenterX();
      var v := JumpVx(dx);
      jumping := true;
      jumpTimer := JUMP_ATTACK_FRAMES;
      vy := -16.0;
      vx := v;
      dialogue := Taunt(JUMP_TAUNTS, pick);
      dialogueTimer := 30;
    }

    /** The jump ends on landing once 20 frames have passed, or when the timer runs out. */
    method DoJumpAttack()
      modifies this`jumpTimer, this`jumping, this`vx
      ensures jumpTimer == old(jumpTimer) - 1
      ensures var landed := grounded && jumpTimer < 60;
        jumping == (old(jumping) && !landed && jumpTimer > 0) &&
        vx == (if landed then 0.0 else old(vx))
    {
      jumpTimer := jumpTimer - 1;
      if grounded && jumpTimer < 60 {
        jumping := false;
        vx := 0.0;
      }
      if jumpTimer <= 0 {
        jumping := false;
      }
    }

    /** A dumbbell thrown level towards the player at 4 + phase px/frame, with a -3 lob. */
    method ThrowDumbbellAt(playerCX: real, pick: nat)
      modifies this`pendingProjectile, this`dialogue, this`dialogueTimer
      ensures fresh(pendingProjectile)
      ensures ShotOf(pendingProjectile) == DumbbellShot(CenterX(), CenterY(), playerCX, phase)
      ensures dialogue == Taunt(THROW_TAUNTS, pick) && dialogueTimer == 30
    {
      var dx := playerCX - CenterX();
      var speed := (4 + phase) as real;
      pendingProjectile := new Projectile(CenterX(), CenterY() - 10.0, Sign(dx) as real * speed, -3.0,
                                          DumbbellConfig());
      dialogue := Taunt(THROW_TAUNTS, pick);
      dialogueTimer := 30;
    }

    /** A protein shake aimed at the player's centre at 5 px/frame. */
    method ThrowShakeAt(playerCX: real, playerCY: real, sqrt: real -> real)
      modifies this`pendingProjectile, this`dialogue, this`dialogueTimer
      ensures fresh(pendingProjectile)
      ensures ShotOf(pendingProjectile) == ShakeShot(CenterX(), CenterY(), playerCX, playerCY, sqrt)
      ensures dialogue == SHAKE_LINE && dialogueTimer == 30
    {
      var dx := playerCX - CenterX();
      var dy := playerCY - CenterY();
      var dist := ThrowDistance(sqrt, dx, dy);
      pendingProjectile := new Projectile(CenterX(), CenterY(),
                                          AimedComponent(dx, dist, 5.0), AimedComponent(dy, dist, 5.0),
                                          ShakeConfig());
      dialogue := SHAKE_LINE;
      dialogueTimer := 30;
    }

    /** An essential-oil bottle aimed at the player's centre at 4.5 px/frame; it stuns on contact. */
    method ThrowOilAt(playerCX: real, playerCY: real, pick: nat, sqrt: real -> real)
      modifies this`pendingProjectile, this`dialogue, this`dialogueTimer
      ensures fresh(pendingProjectile)
      ensures ShotOf(pendingProjectile) == OilShot(CenterX(), CenterY(), playerCX, playerCY, sqrt)
      ensures dialogue == Taunt(OIL_TAUNTS, pick) && dialogueTimer == 40
    {
      var dx := playerCX - CenterX();
      var dy := playerCY - CenterY();
      var dist := ThrowDistance(sqrt, dx, dy);
      pendingProjectile := new Projectile(CenterX(), CenterY() - 10.0,
                                          AimedComponent(dx, dist, 4.5), AimedComponent(dy, dist, 4.5),
                                          OilConfig());
      dialogue := Taunt(OIL_TAUNTS, pick);
      dialogueTimer := 40;
    }
  }
}
