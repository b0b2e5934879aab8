// The common shape of every moving thing: an axis-aligned box with a
// velocity and a `dead` flag.

module Entities {
  /** The way a body faces: 1 is right, -1 is left. */
  type Facing = f: int | f == 1 || f == -1 witness 1

  /** `dir * s`: the signed speed for a direction. */
  function Toward(dir: Facing, s: real): (v: real)
    ensures dir == 1 ==> v == s
    ensures dir == -1 ==> v == -s
  {
    if dir == 1 then s else -s
  }

  /** The opposite direction. */
  function Flip(f: Facing): (r: Facing)
    ensures r as int == -(f as int)
  {
    if f == 1 then -1 else 1
  }

  import opened MathUtil

  /** The midpoint of the span [pos, pos + size]. */
  function Center(pos: real, size: real): (c: real)
    ensures c - pos == pos + size - c
    ensures size >= 0.0 ==> pos <= c <= pos + size
  {
    pos + size / 2.0
  }

  class Entity {
    var x: real
    var y: real
    var width: real
    var height: real
    var vx: real
    var vy: real
    var dead: bool

    constructor (x0: real, y0: real, w: real, h: real)
      ensures x == x0 && y == y0 && width == w && height == h
      ensures vx == 0.0 && vy == 0.0 && !dead
    {
      x, y, width, height := x0, y0, w, h;
      vx, vy := 0.0, 0.0;
      dead := false;
    }

    function GetBounds(): (r: Rect)
      reads this
      ensures r.x == x && r.y == y && r.width == width && r.height == height
    {
      Rect(x, y, width, height)
    }

    function CenterX(): (c: real)
      reads this
      ensures c - x == x + width - c
    {
      Center(x, width)
    }

    function CenterY(): (c: real)
      reads this
      ensures c - y == y + height - c
    {
      Center(y, height)
    }

    /** The base entity has no behaviour of its own: no field may change. */
    method Update(dt: real)
      ensures unchanged(this)
    {
    }
  }
}
