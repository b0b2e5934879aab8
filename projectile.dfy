// Projectiles thrown by enemies and the boss: ballistic motion, a life
// counter, and death on entering a solid tile.

module Projectiles {
  import opened Wrappers
  import opened MathUtil
  import opened Entities
  import opened Tiles
  import opened TileMaps
  import opened Lists

  /**
   * Constructor options. A 0, "" or false field stands for an option that
   * is absent (the source treats every falsy value alike).
   */
  datatype ProjectileConfig = ProjectileConfig(
    width: real, height: real, damage: int, color: string,
    life: int, fromPlayer: bool, gravity: real, stun: int)

  /**
   * The options after the constructor's `||` defaults (8x8, damage 10,
   * life 180): given options are kept, and no size, damage or life is left
   * falsy.
   */
  function WithDefaults(c: ProjectileConfig): (d: ProjectileConfig)
    ensures c.width != 0.0 ==> d.width == c.width
    ensures c.height != 0.0 ==> d.height == c.height
    ensures c.damage != 0 ==> d.damage == c.damage
    ensures c.color != "" ==> d.color == c.color
    ensures c.life != 0 ==> d.life == c.life
    ensures d.fromPlayer == c.fromPlayer && d.gravity == c.gravity && d.stun == c.stun
    ensures d.width != 0.0 && d.height != 0.0 && d.damage != 0 && d.life != 0 && d.color != ""
  {
    ProjectileConfig(
      if c.width == 0.0 then 8.0 else c.width,
      if c.height == 0.0 then 8.0 else c.height,
      if c.damage == 0 then 10 else c.damage,
      if c.color == "" then "#ff4444" else c.color,
      if c.life == 0 then 180 else c.life,
      c.fromPlayer, c.gravity, c.stun)
  }

  /** Applying the defaults twice changes nothing more. */
  lemma DefaultsIdempotent(c: ProjectileConfig)
    ensures WithDefaults(WithDefaults(c)) == WithDefaults(c)
  {
  }

  /** With no options at all, a projectile is 8x8, deals 10, lives 180 frames and neither falls nor stuns. */
  lemma EmptyConfigDefaults()
    ensures WithDefaults(ProjectileConfig(0.0, 0.0, 0, "", 0, false, 0.0, 0)) ==
            ProjectileConfig(8.0, 8.0, 10, "#ff4444", 180, false, 0.0, 0)
  {
  }

  class Projectile {
    var x: real
    var y: real
    const width: real
    const height: real
    var vx: real
    var vy: real
    var dead: bool
    const damage: int
    const color: string
    var life: int
    const fromPlayer: bool
    const gravity: real
    const stun: int

    constructor (x0: real, y0: real, vx0: real, vy0: real, cfg: ProjectileConfig)
      ensures x == x0 && y == y0 && vx == vx0 && vy == vy0 && !dead
      ensures var d := WithDefaults(cfg);
        width == d.width && height == d.height && damage == d.damage && color == d.color &&
        life == d.life && fromPlayer == d.fromPlayer && gravity == d.gravity && stun == d.stun
    {
      var d := WithDefaults(cfg);
      x, y, vx, vy, dead := x0, y0, vx0, vy0, false;
      width, height, damage, color := d.width, d.height, d.damage, d.color;
      life, fromPlayer, gravity, stun := d.life, d.fromPlayer, d.gravity, d.stun;
    }

    function GetBounds(): Rect
      reads this
    {
      Rect(x, y, width, height)
    }

    function CenterX(): real reads this { Center(x, width) }
    function CenterY(): real reads this { Center(y, height) }

    /**
     * One frame: gravity, then movement with the new vertical speed, then
     * one frame of life. Once life reaches 0 the projectile is dead for good.
     */
    method Update()
      modifies this
      ensures vy == old(vy) + gravity && vx == old(vx)
      ensures x == old(x) + old(vx) && y == old(y) + vy
      ensures life == old(life) - 1
      ensures dead == (old(dead) || life <= 0)
      ensures old(life) <= 1 ==> dead
    {
      vy := vy + gravity;
      x := x + vx;
      y := y + vy;
      life := life - 1;
      if life <= 0 {
        dead := true;
      }
    }

    /** Dies iff its centre pixel lies in a solid tile; nothing else changes. */
    method CheckTileCollision(m: TileMap)
      requires WellFormed(m)
      modifies this`dead
      ensures var t := GetTileAtPixel(m, CenterX(), CenterY());
        dead == (old(dead) || (t.Some? && t.value.solid))
    {
      var tile := GetTileAtPixel(m, CenterX(), CenterY());
      if tile.Some? && tile.value.solid {
        dead := true;
      }
    }
  }

  /** The part of a projectile that one frame changes. */
  datatype Flight = Flight(x: real, y: real, vx: real, vy: real, life: int, dead: bool)

  function FlightOf(p: Projectile): Flight
    reads p
  {
    Flight(p.x, p.y, p.vx, p.vy, p.life, p.dead)
  }

  /** The projectiles' flight, in list order. */
  function Flights(s: seq<Projectile>): (r: seq<Flight>)
    reads s
    ensures |r| == |s| && forall k :: 0 <= k < |s| ==> r[k] == FlightOf(s[k])
  {
    seq(|s|, k reads s requires 0 <= k < |s| => FlightOf(s[k]))
  }

  /**
   * One frame of flight for a `width` x `height` projectile: `update`
   * (gravity, the move with the new vertical speed, one frame of life,
   * death once life is used up), then, in a loaded level, death when the
   * new centre lies in a solid tile. A dead projectile stays dead.
   */
  function Fly(f: Flight, gravity: real, width: real, height: real, m: Option<TileMap>): Flight
  {
    var vy := f.vy + gravity;
    var x := f.x + f.vx;
    var y := f.y + vy;
    var t := if m.Some? && WellFormed(m.value) then GetTileAtPixel(m.value, Center(x, width), Center(y, height))
             else None;
    Flight(x, y, f.vx, vy, f.life - 1, f.dead || f.life - 1 <= 0 || (t.Some? && t.value.solid))
  }

  /** `n` frames of flight in the same level; life counts down one per frame and death is final. */
  function FlyFrames(f: Flight, n: nat, gravity: real, width: real, height: real, m: Option<TileMap>): (r: Flight)
    ensures r.life == f.life - n
    ensures f.dead ==> r.dead
    decreases n
  {
    if n == 0 then f else FlyFrames(Fly(f, gravity, width, height, m), n - 1, gravity, width, height, m)
  }

  /** A projectile is dead after at most `life` frames (after one, if its life was already used up). */
  lemma {:induction false} DeadWithinLife(f: Flight, n: nat, gravity: real, width: real, height: real,
                                          m: Option<TileMap>)
    requires n >= 1 && n >= f.life
    ensures FlyFrames(f, n, gravity, width, height, m).dead
    decreases n
  {
    var g := Fly(f, gravity, width, height, m);
    if n > 1 && !g.dead {
      DeadWithinLife(g, n - 1, gravity, width, height, m);
    }
  }

  /** One projectile's turn in `_updateProjectiles`: `update`, then the tile check in a loaded level. */
  method StepProjectile(p: Projectile, m: Option<TileMap>)
    requires m.Some? ==> WellFormed(m.value)
    modifies p
    ensures FlightOf(p) == Fly(old(FlightOf(p)), p.gravity, p.width, p.height, m)
  {
    p.Update();
    if m.Some? {
      p.CheckTileCollision(m.value);
    }
  }

  /** The projectiles still flying, in list order. */
  function LiveProjectiles(s: seq<Projectile>): seq<Projectile>
    reads s
  {
    if s == [] then [] else (if s[0].dead then [] else [s[0]]) + LiveProjectiles(s[1..])
  }

  /** Every live projectile comes from the list. */
  lemma {:induction false} LiveProjectilesFrom(s: seq<Projectile>, x: Projectile)
    requires x in LiveProjectiles(s)
    ensures x in s
  {
    if s != [] && x != s[0] {
      LiveProjectilesFrom(s[1..], x);
    }
  }

  /** Splicing out the projectiles whose dead flag was seen set leaves exactly the live ones. */
  lemma {:induction false} KeepLiveProjectiles(s: seq<Projectile>, gone: seq<bool>)
    requires |gone| == |s| && forall k :: 0 <= k < |s| ==> gone[k] == s[k].dead
    ensures Keep(s, gone) == LiveProjectiles(s)
  {
    if s != [] {
      KeepLiveProjectiles(s[1..], gone[1..]);
    }
  }

  /**
   * Every projectile takes its turn, from the end of the list; the dead
   * ones leave the list and the others keep their order.
   */
  method StepProjectiles(s: seq<Projectile>, m: Option<TileMap>) returns (kept: seq<Projectile>)
    requires Distinct(s) && (m.Some? ==> WellFormed(m.value))
    modifies s
    ensures kept == LiveProjectiles(s) && Distinct(kept)
    ensures forall k :: 0 <= k < |s| ==>
      FlightOf(s[k]) == Fly(old(Flights(s))[k], s[k].gravity, s[k].width, s[k].height, m)
  {
    ghost var before := Flights(s);
    ghost var after := seq(|s|, k requires 0 <= k < |s| => Fly(before[k], s[k].gravity, s[k].width, s[k].height, m));
    ghost var gone := seq(|s|, k requires 0 <= k < |s| => after[k].dead);
    kept := [];
    var i := |s|;
    while i > 0
      invariant 0 <= i <= |s|
      invariant kept == Keep(s[i..], gone[i..])
      invariant forall k :: i <= k < |s| ==> FlightOf(s[k]) == after[k]
      invariant forall k :: 0 <= k < i ==> FlightOf(s[k]) == before[k]
    {
      i := i - 1;
      var p := s[i];
      ghost var pre := Flights(s);
      StepProjectile(p, m);
      forall k | 0 <= k < |s| && k != i
        ensures FlightOf(s[k]) == pre[k]
      {
        assert s[k] != p;
      }
      assert FlightOf(p) == after[i];
      if !p.dead {
        kept := [p] + kept;
      }
      assert kept == Keep(s[i..], gone[i..]) by {
        assert s[i..][1..] == s[i + 1..] && gone[i..][1..] == gone[i + 1..];
      }
    }
    forall k | 0 <= k < |s|
      ensures gone[k] == s[k].dead
    {
      assert FlightOf(s[k]).dead == s[k].dead;
    }
    assert s[0..] == s && gone[0..] == gone;
    KeepLiveProjectiles(s, gone);
    KeepDistinct(s, gone);
  }
}
