// Tile collision: move along X and push out of the solid tiles the box
// overlaps, then do the same along Y, setting `grounded` on landing.

module Collision {
  import opened MathUtil
  import opened Tiles
  import opened TileMaps

  /** The part of an entity the resolver reads and writes. */
  datatype Body = Body(x: real, y: real, width: real, height: real,
                       vx: real, vy: real, grounded: bool)

  function Box(b: Body): Rect { Rect(b.x, b.y, b.width, b.height) }

  function TileRect(t: Tile): Rect
  {
    Rect(t.x as real, t.y as real, t.width as real, t.height as real)
  }

  /** `overlaps`: the strict rectangle test. */
  predicate Overlaps(a: Rect, b: Rect) { RectOverlap(a, b) }

  /** `entityVsEntity`: overlap of the two entities' bounds. */
  predicate EntityVsEntity(a: Rect, b: Rect) { RectOverlap(a, b) }

  predicate Hits(b: Body, t: Tile) { RectOverlap(Box(b), TileRect(t)) }

  // ---- X axis ----

  /** Where an X overlap puts the box: left of the tile moving right, right of it moving left. */
  function SnapX(b: Body, t: Tile): real
  {
    if b.vx > 0.0 then t.x as real - b.width
    else if b.vx < 0.0 then (t.x + t.width) as real
    else b.x
  }

  function XStep(b: Body, t: Tile): Body
  {
    if Hits(b, t) then b.(x := SnapX(b, t), vx := 0.0) else b
  }

  /** The X loop over the tiles, in list order. */
  function XPass(b: Body, tiles: seq<Tile>): Body
    decreases |tiles|
  {
    if tiles == [] then b else XPass(XStep(b, tiles[0]), tiles[1..])
  }

  // ---- Y axis ----

  function YStep(b: Body, t: Tile): Body
  {
    if !Hits(b, t) then b
    else if b.vy > 0.0 then b.(y := t.y as real - b.height, vy := 0.0, grounded := true)
    else if b.vy < 0.0 then b.(y := (t.y + t.height) as real, vy := 0.0)
    else b
  }

  function YPass(b: Body, tiles: seq<Tile>): Body
    decreases |tiles|
  {
    if tiles == [] then b else YPass(YStep(b, tiles[0]), tiles[1..])
  }

  /** The whole resolver: X move and resolution first, then the Y query on the post-X box. */
  function ResolveSpec(b: Body, m: TileMap): Body
    requires WellFormed(m)
  {
    var mx := b.(x := b.x + b.vx);
    var afterX := XPass(mx, SolidTilesNear(m, Box(mx), 1));
    var my := afterX.(y := afterX.y + afterX.vy);
    YPass(my, SolidTilesNear(m, Box(my), 1))
  }

  /** `resolveEntityVsTileMap`, the two loops as in the source. */
  method ResolveEntityVsTileMap(b: Body, m: TileMap) returns (e: Body)
    requires WellFormed(m)
    ensures e == ResolveSpec(b, m)
    ensures e.width == b.width && e.height == b.height
    ensures b.grounded ==> e.grounded
    ensures e.vy == b.vy || e.vy == 0.0
  {
    var mx := b.(x := b.x + b.vx);
    var afterX := ResolveX(mx, m);
    XPassFrame(mx, SolidTilesNear(m, Box(mx), 1));
    var my := afterX.(y := afterX.y + afterX.vy);
    e := ResolveY(my, m);
    YPassFrame(my, SolidTilesNear(m, Box(my), 1));
    YPassVelocity(my, SolidTilesNear(m, Box(my), 1));
  }

  /** The X loop: each overlapping tile snaps the box to its near side and stops it. */
  method ResolveX(b: Body, m: TileMap) returns (e: Body)
    requires WellFormed(m)
    ensures e == XPass(b, SolidTilesNear(m, Box(b), 1))
  {
    e := b;
    var tilesX := GetSolidTilesNear(m, Box(e), 1);
    var i := 0;
    while i < |tilesX|
      invariant 0 <= i <= |tilesX|
      invariant XPass(e, tilesX[i..]) == XPass(b, tilesX)
    {
      assert tilesX[i..][1..] == tilesX[i + 1..];
      ghost var prev := e;
      var tile := tilesX[i];
      if RectOverlap(Box(e), TileRect(tile)) {
        if e.vx > 0.0 {
          e := e.(x := tile.x as real - e.width);
        } else if e.vx < 0.0 {
          e := e.(x := (tile.x + tile.width) as real);
        }
        e := e.(vx := 0.0);
      }
      assert e == XStep(prev, tile);
      i := i + 1;
    }
    assert tilesX[i..] == [];
  }

  /** The Y loop: landing on a tile grounds the box, hitting one from below stops it. */
  method ResolveY(b: Body, m: TileMap) returns (e: Body)
    requires WellFormed(m)
    ensures e == YPass(b, SolidTilesNear(m, Box(b), 1))
  {
    e := b;
    var tilesY := GetSolidTilesNear(m, Box(e), 1);
    var i := 0;
    while i < |tilesY|
      invariant 0 <= i <= |tilesY|
      invariant YPass(e, tilesY[i..]) == YPass(b, tilesY)
    {
      assert tilesY[i..][1..] == tilesY[i + 1..];
      ghost var prev := e;
      var tile := tilesY[i];
      if RectOverlap(Box(e), TileRect(tile)) {
        if e.vy > 0.0 {
          e := e.(y := tile.y as real - e.height, vy := 0.0, grounded := true);
        } else if e.vy < 0.0 {
          e := e.(y := (tile.y + tile.height) as real, vy := 0.0);
        }
      }
      assert e == YStep(prev, tile);
      i := i + 1;
    }
    assert tilesY[i..] == [];
  }

  // ---- properties of the X pass ----

  /** The X pass touches only x and vx. */
  lemma {:induction false} XPassFrame(b: Body, tiles: seq<Tile>)
    ensures var r := XPass(b, tiles);
      r.y == b.y && r.vy == b.vy && r.width == b.width && r.height == b.height && r.grounded == b.grounded
    ensures var r := XPass(b, tiles); r == b || r.vx == 0.0
    decreases |tiles|
  {
    if tiles != [] {
      XPassFrame(XStep(b, tiles[0]), tiles[1..]);
      if XStep(b, tiles[0]) != b {
        XStoppedStaysPut(XStep(b, tiles[0]), tiles[1..]);
      }
    }
  }

  /** Once vx is 0 the X pass changes nothing: every later snap keeps x. */
  lemma {:induction false} XStoppedStaysPut(b: Body, tiles: seq<Tile>)
    requires b.vx == 0.0
    ensures XPass(b, tiles) == b
    decreases |tiles|
  {
    if tiles != [] {
      assert XStep(b, tiles[0]) == b;
      XStoppedStaysPut(b, tiles[1..]);
    }
  }

  /** No overlapping tile: the X pass is plain integration. */
  lemma {:induction false} XPassNoHit(b: Body, tiles: seq<Tile>)
    requires forall i :: 0 <= i < |tiles| ==> !Hits(b, tiles[i])
    ensures XPass(b, tiles) == b
    decreases |tiles|
  {
    if tiles != [] {
      XPassNoHit(b, tiles[1..]);
    }
  }

  /**
   * The first overlapping tile decides: x snaps against it and vx becomes
   * 0, so every later tile is passed with vx = 0 and cannot move x.
   */
  lemma {:induction false} XPassFirstHit(b: Body, tiles: seq<Tile>, k: nat)
    requires k < |tiles| && Hits(b, tiles[k])
    requires forall i :: 0 <= i < k ==> !Hits(b, tiles[i])
    ensures XPass(b, tiles) == b.(x := SnapX(b, tiles[k]), vx := 0.0)
    ensures b.vx > 0.0 ==> XPass(b, tiles).x == tiles[k].x as real - b.width
    ensures b.vx < 0.0 ==> XPass(b, tiles).x == (tiles[k].x + tiles[k].width) as real
    decreases k
  {
    if k == 0 {
      XStoppedStaysPut(XStep(b, tiles[0]), tiles[1..]);
    } else {
      XPassFirstHit(b, tiles[1..], k - 1);
    }
  }

  // ---- properties of the Y pass ----

  lemma {:induction false} YStoppedStaysPut(b: Body, tiles: seq<Tile>)
    requires b.vy == 0.0
    ensures YPass(b, tiles) == b
    decreases |tiles|
  {
    if tiles != [] {
      assert YStep(b, tiles[0]) == b;
      YStoppedStaysPut(b, tiles[1..]);
    }
  }

  /** The Y pass touches only y, vy and grounded, and never clears grounded. */
  lemma {:induction false} YPassFrame(b: Body, tiles: seq<Tile>)
    ensures var r := YPass(b, tiles);
      r.x == b.x && r.vx == b.vx && r.width == b.width && r.height == b.height
    ensures b.grounded ==> YPass(b, tiles).grounded
    ensures b.vy <= 0.0 ==> YPass(b, tiles).grounded == b.grounded
    decreases |tiles|
  {
    if tiles != [] {
      var s := YStep(b, tiles[0]);
      YPassFrame(s, tiles[1..]);
      if s.vy == 0.0 {
        YStoppedStaysPut(s, tiles[1..]);
      }
    }
  }

  lemma {:induction false} YPassNoHit(b: Body, tiles: seq<Tile>)
    requires forall i :: 0 <= i < |tiles| ==> !Hits(b, tiles[i])
    ensures YPass(b, tiles) == b
    decreases |tiles|
  {
    if tiles != [] {
      YPassNoHit(b, tiles[1..]);
    }
  }

  /**
   * Falling onto the first overlapping tile lands on it (y = tile.y - height,
   * vy = 0, grounded); rising into it stops under it (y = tile.y + 32,
   * vy = 0, grounded unchanged).
   */
  lemma {:induction false} YPassFirstHit(b: Body, tiles: seq<Tile>, k: nat)
    requires k < |tiles| && Hits(b, tiles[k])
    requires forall i :: 0 <= i < k ==> !Hits(b, tiles[i])
    ensures b.vy > 0.0 ==> YPass(b, tiles) == b.(y := tiles[k].y as real - b.height, vy := 0.0, grounded := true)
    ensures b.vy < 0.0 ==> YPass(b, tiles) == b.(y := (tiles[k].y + tiles[k].height) as real, vy := 0.0)
    ensures b.vy == 0.0 ==> YPass(b, tiles) == b
    decreases k
  {
    if k == 0 {
      var s := YStep(b, tiles[0]);
      if b.vy != 0.0 {
        YStoppedStaysPut(s, tiles[1..]);
      } else {
        YStoppedStaysPut(b, tiles);
      }
    } else {
      YPassFirstHit(b, tiles[1..], k - 1);
    }
  }

  // ---- the whole resolver ----

  /**
   * Without any solid tile in reach of either move, the entity simply
   * integrates: position + velocity, velocity unchanged.
   */
  lemma ResolveFreeFlight(b: Body, m: TileMap)
    requires WellFormed(m)
    requires var mx := b.(x := b.x + b.vx); var ts := SolidTilesNear(m, Box(mx), 1);
      forall i :: 0 <= i < |ts| ==> !Hits(mx, ts[i])
    requires var my := b.(x := b.x + b.vx, y := b.y + b.vy); var ts := SolidTilesNear(m, Box(my), 1);
      forall i :: 0 <= i < |ts| ==> !Hits(my, ts[i])
    ensures ResolveSpec(b, m) == b.(x := b.x + b.vx, y := b.y + b.vy)
  {
    var mx := b.(x := b.x + b.vx);
    XPassNoHit(mx, SolidTilesNear(m, Box(mx), 1));
    var my := mx.(y := mx.y + mx.vy);
    YPassNoHit(my, SolidTilesNear(m, Box(my), 1));
  }

  /** With no horizontal speed the X pass leaves x where it was. */
  lemma ResolveStillX(b: Body, m: TileMap)
    requires WellFormed(m) && b.vx == 0.0
    ensures ResolveSpec(b, m).x == b.x && ResolveSpec(b, m).vx == 0.0
  {
    var mx := b.(x := b.x + b.vx);
    XStoppedStaysPut(mx, SolidTilesNear(m, Box(mx), 1));
    var my := mx.(y := mx.y + mx.vy);
    YPassFrame(my, SolidTilesNear(m, Box(my), 1));
  }

  /** The Y pass only ever zeroes vy. */
  lemma {:induction false} YPassVelocity(b: Body, tiles: seq<Tile>)
    ensures YPass(b, tiles).vy == b.vy || YPass(b, tiles).vy == 0.0
    decreases |tiles|
  {
    if tiles != [] {
      var s := YStep(b, tiles[0]);
      YPassVelocity(s, tiles[1..]);
      if s.vy == 0.0 {
        YStoppedStaysPut(s, tiles[1..]);
      }
    }
  }
}
