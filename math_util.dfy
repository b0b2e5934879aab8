// Numeric helpers shared by the whole simulation: clamping, linear
// interpolation, strict axis-aligned rectangle overlap and sign.

module MathUtil {

  /** An axis-aligned rectangle: top-left corner and size, in pixels. */
  datatype Rect = Rect(x: real, y: real, width: real, height: real)

  function Min(a: real, b: real): real { if a <= b then a else b }
  function Max(a: real, b: real): real { if a >= b then a else b }
  function IntMin(a: int, b: int): int { if a <= b then a else b }
  function IntMax(a: int, b: int): int { if a >= b then a else b }

  /** `Math.max(lo, Math.min(hi, v))`: when lo > hi the lower bound wins. */
  function Clamp(v: real, lo: real, hi: real): (r: real)
    ensures lo <= hi ==> lo <= r <= hi
    ensures lo <= v <= hi ==> r == v
    ensures lo > hi ==> r == lo
    ensures lo <= hi && v < lo ==> r == lo
    ensures lo <= hi && v > hi ==> r == hi
  {
    Max(lo, Min(hi, v))
  }

  function Lerp(a: real, b: real, t: real): real
  {
    a + (b - a) * t
  }

  lemma LerpEnds(a: real, b: real)
    ensures Lerp(a, b, 0.0) == a
    ensures Lerp(a, b, 1.0) == b
  {
  }

  /** At a fixed fraction t in [0, 1] the result lies between the two ends. */
  lemma LerpBetween(a: real, b: real, t: real)
    requires 0.0 <= t <= 1.0
    ensures Min(a, b) <= Lerp(a, b, t) <= Max(a, b)
    ensures Lerp(a, b, t) - a == (b - a) * t
  {
    var d := b - a;
    var p := d * t;
    assert Lerp(a, b, t) == a + p;
    if a <= b {
      MulBounds(d, t);
      assert 0.0 <= p <= d;
    } else {
      MulBoundsNeg(d, t);
      assert d <= p <= 0.0;
    }
  }

  lemma MulBounds(d: real, t: real)
    requires d >= 0.0 && 0.0 <= t <= 1.0
    ensures 0.0 <= d * t <= d
  {
    assert d * t <= d * 1.0;
  }

  lemma MulBoundsNeg(d: real, t: real)
    requires d <= 0.0 && 0.0 <= t <= 1.0
    ensures d <= d * t <= 0.0
  {
    MulBounds(-d, t);
    assert (-d) * t == -(d * t);
  }

  /** Strict overlap: rectangles that only share an edge do not overlap. */
  predicate RectOverlap(a: Rect, b: Rect)
  {
    a.x < b.x + b.width && a.x + a.width > b.x &&
    a.y < b.y + b.height && a.y + a.height > b.y
  }

  lemma OverlapSymmetric(a: Rect, b: Rect)
    ensures RectOverlap(a, b) <==> RectOverlap(b, a)
  {
  }

  /** Two rectangles side by side, touching along a vertical edge, do not overlap. */
  lemma EdgeTouchingDoesNotOverlap(a: Rect, b: Rect)
    requires b.x == a.x + a.width || b.y == a.y + a.height
    ensures !RectOverlap(a, b) && !RectOverlap(b, a)
  {
  }

  /**
   * A zero-width rectangle overlaps b exactly when its x lies strictly
   * inside b's horizontal span (and the vertical spans overlap); in
   * particular two zero-width rectangles never overlap.
   */
  lemma ZeroWidthOverlap(a: Rect, b: Rect)
    requires a.width == 0.0
    ensures RectOverlap(a, b) <==>
      (b.x < a.x < b.x + b.width && a.y < b.y + b.height && a.y + a.height > b.y)
    ensures b.width == 0.0 ==> !RectOverlap(a, b)
  {
  }

  function Sign(x: real): (r: int)
    ensures r == 1 <==> x > 0.0
    ensures r == -1 <==> x < 0.0
    ensures r == 0 <==> x == 0.0
  {
    if x > 0.0 then 1 else if x < 0.0 then -1 else 0
  }

  /** `Math.round` on an exact real: halves round up, as in JavaScript. */
  function Round(r: real): (n: int)
    ensures r - 0.5 < n as real <= r + 0.5
  {
    (r + 0.5).Floor
  }

  /** `Math.abs`. */
  function Abs(x: real): (r: real)
    ensures r >= 0.0 && (r == x || r == -x)
  {
    if x < 0.0 then -x else x
  }

  /** `Math.floor(v / 32)`, the tile index of a pixel coordinate. */
  function FloorDiv(v: real, d: int): (n: int)
    requires d > 0
    ensures (n * d) as real <= v < ((n + 1) * d) as real
  {
    FloorDivBounds(v, d);
    (v / d as real).Floor
  }

  lemma FloorDivBounds(v: real, d: int)
    requires d > 0
    ensures ((v / d as real).Floor * d) as real <= v < (((v / d as real).Floor + 1) * d) as real
  {
    var q := v / d as real;
    var n := q.Floor;
    assert n as real <= q < n as real + 1.0;
    assert v == q * d as real;
    MulMono(n as real, q, d as real);
    MulStrict(q, n as real + 1.0, d as real);
    assert v < (n as real + 1.0) * d as real;
    assert (n * d) as real == n as real * d as real;
    assert (n + 1) as real == n as real + 1.0;
    assert ((n + 1) * d) as real == (n + 1) as real * d as real;
  }

  lemma MulMono(a: real, b: real, c: real)
    requires a <= b && c > 0.0
    ensures a * c <= b * c
  {
  }

  lemma MulStrict(a: real, b: real, c: real)
    requires a < b && c > 0.0
    ensures a * c < b * c
  {
  }
}
