// The fights of a PLAYING frame: the player's swing against the enemies,
// enemy shots and bodies against the player, and the particle bursts that
// mark a hit or a death.

module Combat {
  import opened Wrappers
  import opened Lists
  import opened MathUtil
  import opened Enemies
  import opened Players
  import opened Projectiles
  import opened Particles
  import opened Bosses

  const HIT_WHITE: string := "#fff"
  const GOLD: string := "#FFD700"
  /** The spacing of the blasts along a shockwave. */
  const RING_STEP: real := 20.0
  /** The id the boss goes by in the swing's hit set; enemy ids start at 1. */
  const BOSS_ID: nat := 0

  /** Where a particle burst goes off, and in which colour. */
  datatype Blast = Blast(x: real, y: real, color: string)

  /** Bursts of `count` particles for the blasts, in order. */
  method SpawnBlasts(bs: seq<Blast>, count: int, rolls: seq<BurstRoll>) returns (ps: seq<Particle>)
    ensures |ps| == BurstSize(count) * |bs| && Distinct(ps) && forall p :: p in ps ==> fresh(p)
    ensures forall k :: 0 <= k < |ps| ==> fresh(ps[k])
  {
    ps := [];
    var i := 0;
    while i < |bs|
      invariant 0 <= i <= |bs| && |ps| == BurstSize(count) * i
      invariant Distinct(ps) && forall p :: p in ps ==> fresh(p)
      invariant forall k :: 0 <= k < |ps| ==> fresh(ps[k])
    {
      var burst := SpawnParticleBurst(bs[i].x, bs[i].y, bs[i].color, count, rolls);
      DistinctAppend(ps, burst);
      ps := ps + burst;
      i := i + 1;
    }
  }

  /** The enemies' ids, in list order. */
  function Ids(s: seq<Enemy>): (r: seq<nat>)
    ensures |r| == |s| && forall i :: 0 <= i < |s| ==> r[i] == s[i].id
  {
    seq(|s|, i requires 0 <= i < |s| => s[i].id)
  }

  /** Enemies with distinct ids are distinct objects. */
  lemma IdsDistinct(s: seq<Enemy>)
    requires Distinct(Ids(s))
    ensures Distinct(s)
  {
    forall i, j | 0 <= i < j < |s|
      ensures s[i] != s[j]
    {
      assert Ids(s)[i] != Ids(s)[j];
    }
  }

  /** The entries whose flag is set, in list order. */
  function Chosen<T>(s: seq<T>, sel: seq<bool>): (r: seq<T>)
    requires |sel| == |s|
    ensures |r| <= |s|
    ensures forall k :: 0 <= k < |s| && sel[k] ==> s[k] in r
    ensures forall x :: x in r ==> x in s
  {
    if s == [] then [] else (if sel[0] then [s[0]] else []) + Chosen(s[1..], sel[1..])
  }

  /** Nothing flagged, nothing chosen. */
  lemma {:induction false} ChosenNone<T>(s: seq<T>, sel: seq<bool>)
    requires |sel| == |s| && forall k :: 0 <= k < |s| ==> !sel[k]
    ensures Chosen(s, sel) == []
  {
    if s != [] {
      ChosenNone(s[1..], sel[1..]);
    }
  }

  // ---- the player's swing ----

  /** Whether the swing box lands on `e`: alive, not yet hit by this swing, and overlapping. */
  predicate Struck(e: Enemy, box: Rect, hit: set<nat>)
    reads e
  {
    !e.dead && e.id !in hit && RectOverlap(box, e.GetBounds())
  }

  /** What one hit of `dmg` does to an enemy's health and death flag. */
  predicate Damaged(e: Enemy, hp0: real, dmg: real)
    reads e
  {
    e.hp == (if hp0 - dmg <= 0.0 then 0.0 else hp0 - dmg) && e.dead == (hp0 - dmg <= 0.0)
  }

  /** An enemy between frames: consistent, with no shot and no minion request waiting. */
  ghost predicate Settled(e: Enemy)
    reads e
  {
    e.Valid() && e.pendingProjectile == null && e.pendingMinions.None?
  }

  /** The hit set after the ids are added to it one by one. */
  function AddAll(hit: set<nat>, ids: seq<nat>): (r: set<nat>)
    ensures hit <= r && forall i :: 0 <= i < |ids| ==> ids[i] in r
    ensures forall x :: x in r ==> x in hit || x in ids
    decreases |ids|
  {
    if ids == [] then hit else AddAll(hit + {ids[0]}, ids[1..])
  }

  /** One enemy's turn in the swing loop. */
  method SwingAt(e: Enemy, box: Rect, hit: set<nat>, dmg: real, px: real) returns (land: bool)
    requires Settled(e)
    modifies e
    ensures land == old(Struck(e, box, hit)) && Settled(e)
    ensures land ==> Damaged(e, old(e.hp), dmg)
    ensures !land ==> unchanged(e)
  {
    land := !e.dead && e.id !in hit && RectOverlap(box, e.GetBounds());
    if land {
      e.TakeDamage(dmg, px);
    }
  }

  /**
   * The enemy loop of `_checkPlayerAttack`, in list order: every enemy the
   * box lands on takes `dmg` from the player's centre `px` and is handed
   * back in `struck`, in the order hit; the caller adds their ids to the
   * swing's hit set. Ids are distinct, so adding one enemy's id during
   * the loop changes nothing for the enemies after it.
   */
  method SwingAtEnemies(s: seq<Enemy>, box: Rect, hit: set<nat>, dmg: real, px: real)
    returns (struck: seq<Enemy>, ghost landed: seq<bool>)
    requires Distinct(s) && forall k :: 0 <= k < |s| ==> Settled(s[k])
    modifies s
    decreases |s|
    ensures |landed| == |s| && struck == Chosen(s, landed)
    ensures forall k :: 0 <= k < |s| ==> landed[k] == old(Struck(s[k], box, hit))
    ensures forall k :: 0 <= k < |s| ==> Settled(s[k])
    ensures forall k :: 0 <= k < |s| && landed[k] ==> Damaged(s[k], old(s[k].hp), dmg)
    ensures forall k :: 0 <= k < |s| && !landed[k] ==> unchanged(s[k])
  {
    if s == [] {
      return [], [];
    }
    var e := s[0];
    assert e !in s[1..];
    var land := SwingAt(e, box, hit, dmg, px);
    var more;
    ghost var rest;
    more, rest := SwingAtEnemies(s[1..], box, hit, dmg, px);
    struck := (if land then [e] else []) + more;
    landed := [land] + rest;
  }

  /**
   * The player's swing box `box` against the enemies: those it lands on
   * take `dmg` from the player's centre and join the swing's hit set, so
   * they are out of reach of the rest of this swing.
   */
  method SwingThrough(s: seq<Enemy>, pl: Player, box: Rect, dmg: real)
    returns (struck: seq<Enemy>, ghost landed: seq<bool>)
    requires Distinct(s) && forall k :: 0 <= k < |s| ==> Settled(s[k])
    modifies s, pl`hitEnemies
    ensures |landed| == |s| && struck == Chosen(s, landed)
    ensures forall k :: 0 <= k < |s| ==> landed[k] == old(Struck(s[k], box, pl.hitEnemies))
    ensures forall k :: 0 <= k < |s| ==> Settled(s[k])
    ensures forall k :: 0 <= k < |s| && landed[k] ==>
      Damaged(s[k], old(s[k].hp), dmg) && s[k].id in pl.hitEnemies && !Struck(s[k], box, pl.hitEnemies)
    ensures forall k :: 0 <= k < |s| && !landed[k] ==> unchanged(s[k])
    ensures pl.hitEnemies == AddAll(old(pl.hitEnemies), Ids(struck))
  {
    struck, landed := SwingAtEnemies(s, box, pl.hitEnemies, dmg, pl.CenterX());
    pl.hitEnemies := AddAll(pl.hitEnemies, Ids(struck));
    forall k | 0 <= k < |s| && landed[k]
      ensures s[k].id in pl.hitEnemies
    {
      var j :| 0 <= j < |struck| && struck[j] == s[k];
      assert Ids(struck)[j] == s[k].id;
    }
  }

  /** A white hit burst at the centre of every enemy struck, in the order struck. */
  function HitBlasts(s: seq<Enemy>): (r: seq<Blast>)
    reads s
    ensures |r| == |s|
    ensures forall k :: 0 <= k < |s| ==> r[k] == Blast(s[k].CenterX(), s[k].CenterY(), HIT_WHITE)
  {
    seq(|s|, k requires 0 <= k < |s| reads s => Blast(s[k].CenterX(), s[k].CenterY(), HIT_WHITE))
  }

  /** Whether the swing box lands on the boss: alive, not yet hit by this swing, and overlapping. */
  predicate StruckBoss(b: BossCosti, box: Rect, hit: set<nat>)
    reads b
  {
    !b.dead && BOSS_ID !in hit && RectOverlap(box, b.GetBounds())
  }

  /**
   * The boss's part of `_checkPlayerAttackBoss`: a landed swing deals
   * `dmg`, which the boss itself ignores during its invincibility frames.
   */
  method SwingAtBoss(b: BossCosti, box: Rect, hit: set<nat>, dmg: real, px: real, chance: real, pick: nat)
    returns (land: bool)
    requires b.Valid()
    modifies b`hp, b`flashTimer, b`invincibleTimer, b`vx, b`phase, b`actionCooldown, b`dialogue,
             b`dialogueTimer, b`dead, b`state
    ensures b.Valid() && land == old(StruckBoss(b, box, hit))
    ensures !land || old(b.invincibleTimer) > 0 ==> unchanged(b)
    ensures land && old(b.invincibleTimer) == 0 ==>
      var left := old(b.hp) - dmg;
      b.hp == (if left <= 0.0 then 0.0 else left) && b.dead == (left <= 0.0) &&
      b.phase == NextPhase(old(b.phase), left)
  {
    land := !b.dead && BOSS_ID !in hit && RectOverlap(box, b.GetBounds());
    if land {
      b.TakeDamage(dmg, px, chance, pick);
    }
  }

  // ---- damage to the player ----

  /**
   * What a hit can change about the player: health, lives, state, the stun
   * timer, the shield, the knockback velocity and the hurt, invincibility
   * and swing timers. `cx` is the player's centre, which a hit leaves in place.
   */
  datatype Vitals = Vitals(health: int, lives: int, state: PlayerState, stun: int, shielded: bool,
                           vx: real, vy: real, hurt: nat, invincible: nat, swing: nat, cx: real)

  function VitalsOf(pl: Player): Vitals
    reads pl, pl.powerUps, pl.powerUps.activePowerUps
  {
    Vitals(pl.health, pl.lives, pl.state, pl.stunTimer, pl.Shielded(), pl.vx, pl.vy, pl.hurtTimer,
           pl.invincibilityTimer, pl.attackTimer, pl.CenterX())
  }

  /**
   * `takeDamage(amount)` from `sourceX` on the vitals: ignored while
   * shielded; otherwise health drops, floored at 0, and the player is
   * HURT, or DEAD with one life fewer once nothing is left; it is knocked
   * 3 px/frame away from the source and 4 up, the swing is cancelled, and
   * 8 hurt and 90 invincibility frames start, which shield it.
   */
  function Harm(v: Vitals, amount: int, sourceX: real): (r: Vitals)
    ensures v.shielded ==> r == v
    ensures !v.shielded ==>
      r.shielded && r.stun == v.stun && r.health >= 0 &&
      (r.health == 0 <==> v.health - amount <= 0) && (r.health > 0 ==> r.health == v.health - amount) &&
      (r.state == PlayerState.Dead <==> v.health - amount <= 0) &&
      (r.state != PlayerState.Dead ==> r.state == PlayerState.Hurt) &&
      (r.lives == v.lives - 1 <==> v.health - amount <= 0) && (r.lives == v.lives || r.lives == v.lives - 1)
    ensures !v.shielded ==>
      r.vx == (if v.cx > sourceX then 3.0 else -3.0) && r.vy == -4.0 && r.cx == v.cx &&
      r.hurt == Players.HURT_FRAMES && r.invincible == INVINCIBILITY_DURATION && r.swing == 0
  {
    if v.shielded then v
    else
      var w := v.(shielded := true, vx := if v.cx > sourceX then 3.0 else -3.0, vy := -4.0,
                  hurt := Players.HURT_FRAMES, invincible := INVINCIBILITY_DURATION, swing := 0);
      if v.health - amount <= 0 then w.(health := 0, lives := v.lives - 1, state := PlayerState.Dead)
      else w.(health := v.health - amount, state := PlayerState.Hurt)
  }

  /** Whether an enemy shot that is still flying touches the player's box. */
  predicate Strikes(p: Projectile, pb: Rect)
    reads p
  {
    !p.dead && !p.fromPlayer && RectOverlap(pb, p.GetBounds())
  }

  /**
   * One shot's effect: on a hit its damage from the shot's centre, then
   * its stun if it carries one; a miss changes nothing.
   */
  function Take(v: Vitals, h: bool, p: Projectile): (r: Vitals)
    reads p
    ensures !h ==> r == v
    ensures h ==> r.shielded && (p.stun > 0 ==> r.stun == p.stun)
    ensures v.shielded ==> r.health == v.health && r.lives == v.lives && r.state == v.state
    ensures 0 <= v.health ==> 0 <= r.health
    ensures r.lives == v.lives || (r.lives == v.lives - 1 && r.shielded)
  {
    if !h then v
    else
      var w := Harm(v, p.damage, p.CenterX());
      w.(stun := if p.stun > 0 then p.stun else w.stun)
  }

  /** The hits flagged in `hits` taken from the end of the list to its front. */
  function TakeAll(v: Vitals, s: seq<Projectile>, hits: seq<bool>): Vitals
    requires |hits| == |s|
    reads s
  {
    if s == [] then v else Take(TakeAll(v, s[1..], hits[1..]), hits[0], s[0])
  }

  /**
   * The stun timer after the hits flagged in `hits`, starting from `st`:
   * taken from the end of the list to its front, the frontmost stunning
   * hit has the last word.
   */
  function StunAfter(s: seq<Projectile>, hits: seq<bool>, st: int): (r: int)
    requires |hits| == |s|
    ensures (forall k :: 0 <= k < |s| ==> !(hits[k] && s[k].stun > 0)) ==> r == st
    ensures forall k :: (0 <= k < |s| && hits[k] && s[k].stun > 0 &&
                         forall j :: 0 <= j < k ==> !(hits[j] && s[j].stun > 0)) ==> r == s[k].stun
  {
    if s == [] then st
    else if hits[0] && s[0].stun > 0 then s[0].stun
    else StunAfter(s[1..], hits[1..], st)
  }

  /** Without a hit the player is untouched. */
  lemma {:induction false} TakeAllMiss(v: Vitals, s: seq<Projectile>, hits: seq<bool>)
    requires |hits| == |s| && forall k :: 0 <= k < |s| ==> !hits[k]
    ensures TakeAll(v, s, hits) == v
  {
    if s != [] {
      TakeAllMiss(v, s[1..], hits[1..]);
    }
  }

  /**
   * However many shots hit in one frame, the player takes the damage of
   * exactly one: the last hit in list order, which the walk from the end
   * meets first; its invincibility shields the player from the others.
   * Every stunning hit still sets the stun timer.
   */
  lemma {:induction false} TakeAllOnce(v: Vitals, s: seq<Projectile>, hits: seq<bool>, top: int)
    requires |hits| == |s| && 0 <= top < |s| && hits[top]
    requires forall k :: top < k < |s| ==> !hits[k]
    ensures TakeAll(v, s, hits) == Harm(v, s[top].damage, s[top].CenterX()).(stun := StunAfter(s, hits, v.stun))
  {
    if top == 0 {
      TakeAllMiss(v, s[1..], hits[1..]);
    } else {
      TakeAllOnce(v, s[1..], hits[1..], top - 1);
    }
  }

  /** One shot's turn in `_checkProjectileHits`: a hit deals its damage and stun and spends the shot. */
  method StrikeAt(p: Projectile, pl: Player) returns (h: bool)
    modifies p`dead, pl`health, pl`hurtTimer, pl`invincibilityTimer, pl`state, pl`attackTimer, pl`vx,
             pl`vy, pl`lives, pl`stunTimer
    ensures h == old(Strikes(p, pl.GetBounds())) && p.dead == (old(p.dead) || h)
    ensures VitalsOf(pl) == Take(old(VitalsOf(pl)), h, p)
  {
    h := !p.dead && !p.fromPlayer && RectOverlap(pl.GetBounds(), p.GetBounds());
    if h {
      pl.TakeDamage(p.damage, p.CenterX());
      if p.stun > 0 {
        pl.stunTimer := p.stun;
      }
      p.dead := true;
    }
  }

  /**
   * The loop of `_checkProjectileHits`, from the end of the list to its
   * front: the enemy shots still flying that touch the player hit it and
   * are spent and spliced out; the rest keep their order.
   */
  method ProjectileHits(s: seq<Projectile>, pl: Player) returns (kept: seq<Projectile>, ghost hits: seq<bool>)
    requires Distinct(s)
    modifies s`dead, pl`health, pl`hurtTimer, pl`invincibilityTimer, pl`state, pl`attackTimer, pl`vx,
             pl`vy, pl`lives, pl`stunTimer
    decreases |s|
    ensures |hits| == |s| && kept == Keep(s, hits)
    ensures forall k :: 0 <= k < |s| ==> hits[k] == old(Strikes(s[k], pl.GetBounds()))
    ensures forall k :: 0 <= k < |s| ==> s[k].dead == (old(s[k].dead) || hits[k])
    ensures VitalsOf(pl) == TakeAll(old(VitalsOf(pl)), s, hits)
  {
    if s == [] {
      return [], [];
    }
    var p := s[0];
    assert p !in s[1..];
    var rest;
    ghost var rh;
    rest, rh := ProjectileHits(s[1..], pl);
    var h := StrikeAt(p, pl);
    kept := (if h then [] else [p]) + rest;
    hits := [h] + rh;
  }

  // ---- contact damage ----

  /** Whether a live enemy's body touches the player's box. */
  predicate Touches(e: Enemy, pb: Rect)
    reads e
  {
    !e.dead && e.state != EnemyState.Dead && RectOverlap(pb, e.GetBounds())
  }

  /** The first enemy in list order whose body touches the box, if any. */
  function FirstTouch(s: seq<Enemy>, pb: Rect): (r: Option<nat>)
    reads s
    ensures r.Some? ==> r.value < |s| && Touches(s[r.value], pb) &&
                        forall k :: 0 <= k < r.value ==> !Touches(s[k], pb)
    ensures r.None? ==> forall k :: 0 <= k < |s| ==> !Touches(s[k], pb)
  {
    if s == [] then None
    else if Touches(s[0], pb) then Some(0)
    else match FirstTouch(s[1..], pb)
      case None => None
      case Some(i) => Some(i + 1)
  }

  /**
   * `_checkEnemyContact`: unless the player has invincibility frames or is
   * dead, the first live enemy in list order whose body touches it deals
   * its contact damage from its centre, and the loop stops there.
   */
  method EnemyContact(s: seq<Enemy>, pl: Player) returns (who: Option<nat>)
    modifies pl`health, pl`hurtTimer, pl`invincibilityTimer, pl`state, pl`attackTimer, pl`vx, pl`vy,
             pl`lives
    ensures who == if old(pl.invincibilityTimer > 0 || pl.state == PlayerState.Dead) then None
                   else FirstTouch(s, old(pl.GetBounds()))
    ensures who.None? ==> unchanged(pl)
    ensures who.Some? ==> VitalsOf(pl) == Harm(old(VitalsOf(pl)), s[who.value].damage, s[who.value].CenterX())
  {
    if pl.invincibilityTimer > 0 || pl.state == PlayerState.Dead {
      return None;
    }
    var pb := pl.GetBounds();
    var i := 0;
    while i < |s|
      invariant 0 <= i <= |s| && forall k :: 0 <= k < i ==> !Touches(s[k], pb)
    {
      var e := s[i];
      if !e.dead && e.state != EnemyState.Dead && RectOverlap(pb, e.GetBounds()) {
        pl.TakeDamage(e.damage, e.CenterX());
        return Some(i);
      }
      i := i + 1;
    }
    return None;
  }

  /** `takeDamage` on the player, seen through the fields a hit changes. */
  method HurtPlayer(pl: Player, amount: int, sourceX: real)
    modifies pl`health, pl`hurtTimer, pl`invincibilityTimer, pl`state, pl`attackTimer, pl`vx, pl`vy,
             pl`lives
    ensures VitalsOf(pl) == Harm(old(VitalsOf(pl)), amount, sourceX)
    ensures old(pl.Shielded()) ==> unchanged(pl)
    ensures pl.x == old(pl.x) && pl.y == old(pl.y)
  {
    pl.TakeDamage(amount, sourceX);
  }

  /** Whether the boss's body touches the player's box while both are in play. */
  predicate BossTouches(b: BossCosti, pl: Player)
    reads b, pl
  {
    !b.dead && pl.invincibilityTimer == 0 && pl.state != PlayerState.Dead &&
    RectOverlap(pl.GetBounds(), b.GetBounds())
  }

  /**
   * `_checkBossContact`: unless the player has invincibility frames or is
   * dead, a live boss whose body touches the player deals its contact damage.
   */
  method BossContact(b: BossCosti, pl: Player) returns (touch: bool)
    modifies pl`health, pl`hurtTimer, pl`invincibilityTimer, pl`state, pl`attackTimer, pl`vx, pl`vy,
             pl`lives
    ensures touch == old(BossTouches(b, pl))
    ensures touch ==> VitalsOf(pl) == Harm(old(VitalsOf(pl)), b.damage, b.CenterX())
    ensures !touch ==> unchanged(pl)
  {
    if b.dead || pl.invincibilityTimer > 0 || pl.state == PlayerState.Dead {
      return false;
    }
    touch := RectOverlap(pl.GetBounds(), b.GetBounds());
    if touch {
      HurtPlayer(pl, b.damage, b.CenterX());
    }
  }

  // ---- the boss's shockwave and death ----

  /**
   * Whether the point (px, py) lies strictly inside the shockwave's
   * circle, compared on squared distances.
   */
  predicate InReach(sw: Shockwave, px: real, py: real)
  {
    (px - sw.x) * (px - sw.x) + (py - sw.y) * (py - sw.y) < sw.radius * sw.radius
  }

  /** Squares of non-negative numbers keep their order. */
  lemma SquareLess(a: real, b: real)
    requires 0.0 <= a < b
    ensures a * a < b * b
  {
    var x, y, z := a * a, a * b, b * b;
    assert x <= y;
    assert y < z;
  }

  /**
   * For a non-negative radius the squared test agrees with the distance
   * test: `d` is any non-negative number whose square is the squared distance.
   */
  lemma InReachIsDistance(sw: Shockwave, px: real, py: real, d: real)
    requires sw.radius >= 0.0 && d >= 0.0
    requires d * d == (px - sw.x) * (px - sw.x) + (py - sw.y) * (py - sw.y)
    ensures InReach(sw, px, py) <==> d < sw.radius
  {
    if d < sw.radius {
      SquareLess(d, sw.radius);
    } else if sw.radius < d {
      SquareLess(sw.radius, d);
    }
  }

  /**
   * The ring a landed slam leaves: a gold blast every 20 px along the
   * ground line raised by 4 px, from `x - radius` up to but not including
   * `x + radius`, that is one blast per 10 px of radius, rounded up.
   */
  method ShockwaveRing(sw: Shockwave) returns (bs: seq<Blast>)
    ensures forall j :: 0 <= j < |bs| ==>
      bs[j] == Blast(sw.x + (-sw.radius + RING_STEP * j as real), sw.y - 4.0, GOLD) &&
      -sw.radius + RING_STEP * j as real < sw.radius
    ensures -sw.radius + RING_STEP * |bs| as real >= sw.radius
    ensures sw.radius <= 0.0 ==> bs == []
    ensures sw.radius > 0.0 ==> (|bs| - 1) as real * 10.0 < sw.radius <= |bs| as real * 10.0
  {
    bs := [];
    var i := -sw.radius;
    while i < sw.radius
      invariant i == -sw.radius + RING_STEP * |bs| as real
      invariant forall j :: 0 <= j < |bs| ==>
        bs[j] == Blast(sw.x + (-sw.radius + RING_STEP * j as real), sw.y - 4.0, GOLD) &&
        -sw.radius + RING_STEP * j as real < sw.radius
      decreases (sw.radius - i).Floor
    {
      bs := bs + [Blast(sw.x + i, sw.y - 4.0, GOLD)];
      i := i + RING_STEP;
    }
    if |bs| > 0 {
      var last := |bs| - 1;
      assert bs[last].y == sw.y - 4.0;
    }
  }

  /** The `k`-th random roll, or 0.5 (no offset) where the host supplied none. */
  function Roll(rolls: seq<real>, k: nat): (r: real)
    ensures k < |rolls| ==> r == rolls[k]
    ensures k >= |rolls| ==> r == 0.5
  {
    if k < |rolls| then rolls[k] else 0.5
  }

  /** The number of gold bursts the boss's death sets off. */
  const DEATH_BURSTS: nat := 5

  /**
   * The five gold bursts of the boss's death around its centre: burst `k`
   * is shifted by (roll 2k - 0.5) x 60 across and (roll 2k+1 - 0.5) x 80
   * down, so with rolls in [0, 1) every burst lies in a 60 x 80 box
   * centred on the boss.
   */
  function DeathBlasts(cx: real, cy: real, rolls: seq<real>): (r: seq<Blast>)
    ensures |r| == DEATH_BURSTS && forall k :: 0 <= k < |r| ==> r[k].color == GOLD
    ensures (forall k :: 0 <= k < |rolls| ==> 0.0 <= rolls[k] < 1.0) ==>
      forall k :: 0 <= k < |r| ==>
        cx - 30.0 <= r[k].x < cx + 30.0 && cy - 40.0 <= r[k].y < cy + 40.0
  {
    seq(DEATH_BURSTS, k requires 0 <= k < DEATH_BURSTS =>
      Blast(cx + (Roll(rolls, 2 * k) - 0.5) * 60.0, cy + (Roll(rolls, 2 * k + 1) - 0.5) * 80.0, GOLD))
  }
}
