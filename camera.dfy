// The camera: eases towards centring the followed player and never shows
// anything outside the level.

module Cameras {
  import opened MathUtil
  import opened Players

  const SMOOTHING: real := 0.1
  const DEFAULT_MARGIN: real := 64.0

  /**
   * One axis of `update`: ease 10% of the way from `pos` to the position
   * that centres `centre` in a viewport of size `view`, then clamp into
   * [0, max(0, level - view)].
   */
  function FollowAxis(pos: real, centre: real, view: real, level: real): (r: real)
    ensures 0.0 <= r <= Max(0.0, level - view)
    ensures level <= view ==> r == 0.0
  {
    Clamp(Lerp(pos, centre - view / 2.0, SMOOTHING), 0.0, Max(0.0, level - view))
  }

  /** When the centred position is inside the bounds, a camera already there stays. */
  lemma FollowAxisFixpoint(centre: real, view: real, level: real)
    requires 0.0 <= centre - view / 2.0 <= Max(0.0, level - view)
    ensures FollowAxis(centre - view / 2.0, centre, view, level) == centre - view / 2.0
  {
    LerpEnds(centre - view / 2.0, centre - view / 2.0);
    assert Lerp(centre - view / 2.0, centre - view / 2.0, SMOOTHING) == centre - view / 2.0;
  }

  /**
   * Inside the bounds the camera closes exactly 10% of the gap to the
   * centred position each frame, without overshooting it.
   */
  lemma FollowAxisApproaches(pos: real, centre: real, view: real, level: real)
    requires 0.0 <= pos <= Max(0.0, level - view)
    requires 0.0 <= centre - view / 2.0 <= Max(0.0, level - view)
    ensures var goal := centre - view / 2.0;
      var r := FollowAxis(pos, centre, view, level);
      r - goal == (pos - goal) * 0.9 && Min(pos, goal) <= r <= Max(pos, goal)
  {
    var goal := centre - view / 2.0;
    LerpBetween(pos, goal, SMOOTHING);
    var l := Lerp(pos, goal, SMOOTHING);
    assert l - pos == (goal - pos) * SMOOTHING;
    assert 0.0 <= l <= Max(0.0, level - view);
  }

  /** The viewport at (cx, cy), grown by `margin` on every side. */
  function ViewRect(cx: real, cy: real, vw: real, vh: real, margin: real): (r: Rect)
    ensures r.x == cx - margin && r.y == cy - margin
    ensures r.x + r.width == cx + vw + margin && r.y + r.height == cy + vh + margin
  {
    Rect(cx - margin, cy - margin, vw + 2.0 * margin, vh + 2.0 * margin)
  }

  class Camera {
    var x: real
    var y: real
    const viewportWidth: real
    const viewportHeight: real
    var target: Player?
    const smoothing: real := SMOOTHING
    var levelWidth: real
    var levelHeight: real

    /** A camera at the origin, following nothing, whose level is one viewport large. */
    constructor (vw: real, vh: real)
      ensures x == 0.0 && y == 0.0 && viewportWidth == vw && viewportHeight == vh
      ensures target == null && smoothing == SMOOTHING && levelWidth == vw && levelHeight == vh
    {
      x, y, viewportWidth, viewportHeight := 0.0, 0.0, vw, vh;
      target, levelWidth, levelHeight := null, vw, vh;
    }

    method SetLevelBounds(width: real, height: real)
      modifies this`levelWidth, this`levelHeight
      ensures levelWidth == width && levelHeight == height
    {
      levelWidth := width;
      levelHeight := height;
    }

    method Follow(t: Player?)
      modifies this`target
      ensures target == t
    {
      target := t;
    }

    function MaxX(): real reads this { Max(0.0, levelWidth - viewportWidth) }
    function MaxY(): real reads this { Max(0.0, levelHeight - viewportHeight) }

    /**
     * `update`: nothing without a target; otherwise each axis follows the
     * target's centre, so the camera always ends inside the level.
     */
    method Update()
      modifies this`x, this`y
      ensures target == null ==> x == old(x) && y == old(y)
      ensures target != null ==>
        x == FollowAxis(old(x), target.CenterX(), viewportWidth, levelWidth) &&
        y == FollowAxis(old(y), target.CenterY(), viewportHeight, levelHeight)
      ensures target != null ==> 0.0 <= x <= MaxX() && 0.0 <= y <= MaxY()
    {
      if target == null {
        return;
      }
      var targetX := target.CenterX() - viewportWidth / 2.0;
      var targetY := target.CenterY() - viewportHeight / 2.0;
      x := Lerp(x, targetX, smoothing);
      y := Lerp(y, targetY, smoothing);
      x := Clamp(x, 0.0, Max(0.0, levelWidth - viewportWidth));
      y := Clamp(y, 0.0, Max(0.0, levelHeight - viewportHeight));
    }

    /**
     * `isVisible`: the box strictly overlaps the viewport grown by
     * `margin` (0 stands for an absent margin and means 64).
     */
    function IsVisible(r: Rect, margin: real): (b: bool)
      reads this
      ensures b <==> RectOverlap(r, ViewRect(x, y, viewportWidth, viewportHeight,
                                             if margin == 0.0 then DEFAULT_MARGIN else margin))
    {
      var m := if margin == 0.0 then DEFAULT_MARGIN else margin;
      r.x + r.width > x - m && r.x < x + viewportWidth + m &&
      r.y + r.height > y - m && r.y < y + viewportHeight + m
    }

    /** Anything overlapping the viewport itself is visible under any non-negative margin. */
    lemma OnScreenIsVisible(r: Rect, margin: real)
      requires margin >= 0.0
      requires RectOverlap(r, Rect(x, y, viewportWidth, viewportHeight))
      ensures IsVisible(r, margin)
    {
    }
  }
}
