// Pickups (coins, health packs, supplements): a 24x24 box that the player
// collects once, by touching it with a little forgiveness around both boxes.

module Collectibles {
  import opened MathUtil
  import opened Entities

  const ITEM_SIZE: real := 24.0
  const PICKUP_PADDING: real := 6.0

  /** What a pickup gives: points or hit points (a number), or a power-up type name. */
  datatype ItemValue = Amount(n: int) | PowerType(name: string)

  /**
   * The pickup test: the player's box, grown by `pad` on every side,
   * strictly overlaps the item's box.
   */
  predicate PaddedOverlap(pb: Rect, pad: real, item: Rect)
  {
    pb.x - pad < item.x + item.width && pb.x + pb.width + pad > item.x &&
    pb.y - pad < item.y + item.height && pb.y + pb.height + pad > item.y
  }

  /** The padded box, as a rectangle of its own. */
  function Grow(r: Rect, pad: real): (g: Rect)
    ensures g.x == r.x - pad && g.y == r.y - pad
    ensures g.x + g.width == r.x + r.width + pad && g.y + g.height == r.y + r.height + pad
  {
    Rect(r.x - pad, r.y - pad, r.width + 2.0 * pad, r.height + 2.0 * pad)
  }

  /** The padded test is plain overlap against the grown player box. */
  lemma PaddedIsGrownOverlap(pb: Rect, pad: real, item: Rect)
    ensures PaddedOverlap(pb, pad, item) <==> RectOverlap(Grow(pb, pad), item)
  {
  }

  /** Padding only adds forgiveness: a real overlap is always a pickup. */
  lemma OverlapIsPickup(pb: Rect, pad: real, item: Rect)
    requires pad >= 0.0 && RectOverlap(pb, item)
    ensures PaddedOverlap(pb, pad, item)
  {
  }

  class Collectible {
    var x: real
    var y: real
    const width: real
    const height: real
    const kind: string
    const value: ItemValue
    var collected: bool
    var bobTime: real
    var pulseTime: real
    var sparkleTime: real
    var displayName: string
    var configName: string
    var score: int
    var duration: int

    /** `bobPhase` is the random starting phase of the bobbing animation. */
    constructor (x0: real, y0: real, kind0: string, value0: ItemValue, bobPhase: real)
      ensures x == x0 && y == y0 && width == ITEM_SIZE && height == ITEM_SIZE
      ensures kind == kind0 && value == value0 && !collected
      ensures bobTime == bobPhase && pulseTime == 0.0 && sparkleTime == 0.0
      ensures displayName == "" && configName == "" && score == 0 && duration == 0
    {
      x, y, width, height := x0, y0, ITEM_SIZE, ITEM_SIZE;
      kind, value, collected := kind0, value0, false;
      bobTime, pulseTime, sparkleTime := bobPhase, 0.0, 0.0;
      displayName, configName, score, duration := "", "", 0, 0;
    }

    function GetBounds(): Rect reads this { Rect(x, y, width, height) }

    /** The animation clocks advance until the item is collected, then freeze. */
    method Update(dt: real)
      modifies this`bobTime, this`pulseTime, this`sparkleTime
      ensures collected ==> unchanged(this)
      ensures !collected ==>
        bobTime == old(bobTime) + 0.1 && pulseTime == old(pulseTime) + 0.15 &&
        sparkleTime == old(sparkleTime) + 0.2
    {
      if collected {
        return;
      }
      bobTime := bobTime + 0.1;
      pulseTime := pulseTime + 0.15;
      sparkleTime := sparkleTime + 0.2;
    }

    /**
     * Succeeds iff the item is not yet collected and the player's bounds,
     * padded by 6 x the player's scale, overlap it; success marks it
     * collected, so a second attempt always fails.
     */
    method TryCollect(pb: Rect, scale: real) returns (took: bool)
      modifies this`collected
      ensures took <==> !old(collected) && PaddedOverlap(pb, PICKUP_PADDING * scale, GetBounds())
      ensures collected == (old(collected) || took)
      ensures old(collected) ==> !took && collected
    {
      if collected {
        return false;
      }
      var pad := PICKUP_PADDING * scale;
      var overlap := pb.x - pad < x + width && pb.x + pb.width + pad > x &&
                     pb.y - pad < y + height && pb.y + pb.height + pad > y;
      if overlap {
        collected := true;
        return true;
      }
      return false;
    }
  }
}
