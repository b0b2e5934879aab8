// Short-lived visual particles: ballistic motion and a life counter, and
// the burst helper that makes a batch of them at one point.

module Particles {
  import opened Wrappers
  import opened MathUtil
  import opened Lists

  /**
   * Constructor options. 0 and "" stand for an absent size, velocity,
   * colour or life (falsy in the source); gravity and fadeOut are only
   * replaced when missing altogether, so an explicit 0 gravity is kept.
   */
  datatype ParticleConfig = ParticleConfig(
    size: real, vx: real, vy: real, color: string, life: int,
    gravity: Option<real>, fadeOut: Option<bool>)

  /** The values `Math.random()`-based fallbacks produce for a missing velocity. */
  datatype FallbackVelocity = FallbackVelocity(vx: real, vy: real)

  /** One draw of the burst's random velocity, life and size. */
  datatype BurstRoll = BurstRoll(vx: real, vy: real, life: int, size: real)

  /** Explicit options are kept; a missing gravity is 0.15 and a missing fadeOut true. */
  function GravityOf(g: Option<real>): (r: real)
    ensures g.Some? ==> r == g.value
    ensures g.None? ==> r == 0.15
  {
    if g.Some? then g.value else 0.15
  }

  /** The part of a particle that one frame changes. */
  datatype Motion = Motion(x: real, y: real, vx: real, vy: real, life: int, dead: bool)

  /**
   * One frame of motion: gravity first, then the move with the old
   * horizontal and the new vertical speed, then one frame of life; the
   * particle dies once its life is used up and stays dead.
   */
  function Advance(m: Motion, gravity: real): Motion
  {
    var vy := m.vy + gravity;
    Motion(m.x + m.vx, m.y + vy, m.vx, vy, m.life - 1, m.dead || m.life - 1 <= 0)
  }

  function MotionOf(p: Particle): Motion
    reads p
  {
    Motion(p.x, p.y, p.vx, p.vy, p.life, p.dead)
  }

  /** The particles' motion, in list order. */
  function Motions(s: seq<Particle>): (r: seq<Motion>)
    reads s
    ensures |r| == |s| && forall k :: 0 <= k < |s| ==> r[k] == MotionOf(s[k])
  {
    seq(|s|, k reads s requires 0 <= k < |s| => MotionOf(s[k]))
  }

  class Particle {
    var x: real
    var y: real
    const width: real
    const height: real
    var vx: real
    var vy: real
    var dead: bool
    const color: string
    var life: int
    const maxLife: int
    const gravity: real
    const fadeOut: bool

    constructor (x0: real, y0: real, cfg: ParticleConfig, rand: FallbackVelocity)
      ensures x == x0 && y == y0 && !dead
      ensures width == height == (if cfg.size == 0.0 then 4.0 else cfg.size)
      ensures vx == (if cfg.vx == 0.0 then rand.vx else cfg.vx)
      ensures vy == (if cfg.vy == 0.0 then rand.vy else cfg.vy)
      ensures color == (if cfg.color == "" then "#fff" else cfg.color)
      ensures life == maxLife == (if cfg.life == 0 then 30 else cfg.life)
      ensures gravity == GravityOf(cfg.gravity)
      ensures fadeOut == (cfg.fadeOut != Some(false))
    {
      var size := if cfg.size == 0.0 then 4.0 else cfg.size;
      x, y, width, height, dead := x0, y0, size, size, false;
      vx := if cfg.vx == 0.0 then rand.vx else cfg.vx;
      vy := if cfg.vy == 0.0 then rand.vy else cfg.vy;
      color := if cfg.color == "" then "#fff" else cfg.color;
      life := if cfg.life == 0 then 30 else cfg.life;
      maxLife := life;
      gravity := GravityOf(cfg.gravity);
      fadeOut := if cfg.fadeOut.Some? then cfg.fadeOut.value else true;
    }

    /** Gravity, then movement with the new vertical speed, then one frame of life. */
    method Update()
      modifies this
      ensures vy == old(vy) + gravity && vx == old(vx)
      ensures x == old(x) + old(vx) && y == old(y) + vy
      ensures life == old(life) - 1
      ensures dead == (old(dead) || life <= 0)
      ensures MotionOf(this) == Advance(old(MotionOf(this)), gravity)
    {
      vy := vy + gravity;
      x := x + vx;
      y := y + vy;
      life := life - 1;
      if life <= 0 {
        dead := true;
      }
    }
  }

  /** `count || 8`: a burst of 0 (or an absent count) means 8. */
  function BurstSize(count: int): (n: nat)
    ensures count > 0 ==> n == count
    ensures count == 0 ==> n == 8
    ensures count < 0 ==> n == 0
  {
    if count == 0 then 8 else if count < 0 then 0 else count
  }

  /** The roll for particle i; a burst longer than the supplied rolls reuses a neutral one. */
  function RollAt(rolls: seq<BurstRoll>, i: nat): BurstRoll
  {
    if i < |rolls| then rolls[i] else BurstRoll(0.0, -1.0, 20, 2.0)
  }

  /**
   * `spawnParticleBurst`: exactly `count || 8` new particles, all at (x, y)
   * in the given colour, each with its own random velocity, life and size.
   */
  method SpawnParticleBurst(x: real, y: real, color: string, count: int, rolls: seq<BurstRoll>)
    returns (ps: seq<Particle>)
    ensures |ps| == BurstSize(count)
    ensures forall i :: 0 <= i < |ps| ==> fresh(ps[i])
    ensures forall i, j :: 0 <= i < j < |ps| ==> ps[i] != ps[j]
    ensures forall i :: 0 <= i < |ps| ==>
      ps[i].x == x && ps[i].y == y && !ps[i].dead &&
      ps[i].color == (if color == "" then "#fff" else color)
  {
    var n := BurstSize(count);
    ps := [];
    var i := 0;
    while i < n
      invariant 0 <= i <= n && |ps| == i
      invariant forall k :: 0 <= k < i ==> fresh(ps[k])
      invariant forall k, l :: 0 <= k < l < i ==> ps[k] != ps[l]
      invariant forall k :: 0 <= k < i ==>
        ps[k].x == x && ps[k].y == y && !ps[k].dead &&
        ps[k].color == (if color == "" then "#fff" else color)
    {
      var r := RollAt(rolls, i);
      var p := new Particle(x, y, ParticleConfig(r.size, r.vx, r.vy, color, r.life, None, None),
                            FallbackVelocity(r.vx, r.vy));
      ps := ps + [p];
      i := i + 1;
    }
  }

  /** The particles still alive, in list order. */
  function LiveParticles(s: seq<Particle>): seq<Particle>
    reads s
  {
    if s == [] then [] else (if s[0].dead then [] else [s[0]]) + LiveParticles(s[1..])
  }

  /** Splicing out the particles whose dead flag was seen set leaves exactly the live ones. */
  lemma {:induction false} KeepLive(s: seq<Particle>, gone: seq<bool>)
    requires |gone| == |s| && forall k :: 0 <= k < |s| ==> gone[k] == s[k].dead
    ensures Keep(s, gone) == LiveParticles(s)
  {
    if s != [] {
      KeepLive(s[1..], gone[1..]);
    }
  }

  /**
   * Every particle steps once; the dead ones leave the list, the others
   * keep their order.
   */
  method StepParticles(s: seq<Particle>) returns (kept: seq<Particle>)
    requires Distinct(s)
    modifies s
    ensures kept == LiveParticles(s) && Distinct(kept)
    ensures forall k :: 0 <= k < |s| ==> MotionOf(s[k]) == Advance(old(Motions(s))[k], s[k].gravity)
  {
    ghost var before := Motions(s);
    ghost var after := seq(|s|, k requires 0 <= k < |s| => Advance(before[k], s[k].gravity));
    ghost var gone := seq(|s|, k requires 0 <= k < |s| => after[k].dead);
    kept := [];
    var i := |s|;
    while i > 0
      invariant 0 <= i <= |s|
      invariant kept == Keep(s[i..], gone[i..])
      invariant forall k :: i <= k < |s| ==> MotionOf(s[k]) == after[k]
      invariant forall k :: 0 <= k < i ==> MotionOf(s[k]) == before[k]
    {
      i := i - 1;
      var p := s[i];
      ghost var pre := Motions(s);
      p.Update();
      forall k | 0 <= k < |s| && k != i
        ensures MotionOf(s[k]) == pre[k]
      {
        assert s[k] != p;
      }
      assert MotionOf(p) == after[i];
      if !p.dead {
        kept := [p] + kept;
      }
      assert kept == Keep(s[i..], gone[i..]) by {
        assert s[i..][1..] == s[i + 1..] && gone[i..][1..] == gone[i + 1..];
      }
    }
    forall k | 0 <= k < |s|
      ensures gone[k] == s[k].dead
    {
      assert MotionOf(s[k]).dead == s[k].dead;
    }
    assert s[0..] == s && gone[0..] == gone;
    KeepLive(s, gone);
    KeepDistinct(s, gone);
  }
}
