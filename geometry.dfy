/**
 * The geometry around the pie: the integer hit-test rectangle, the real
 * drawing rectangle it is rounded from, the truncation of a touch position
 * to integer pixels, and the normalisation of the touch angle.
 * Floating-point values are modelled as exact reals.
 */
module Geometry {

  /** android.graphics.Rect: integer edges, right and bottom exclusive. */
  datatype Rect = Rect(left: int, top: int, right: int, bottom: int)

  /** android.graphics.RectF: the same edges as floating-point values. */
  datatype RectF = RectF(left: real, top: real, right: real, bottom: real)

  predicate IsEmpty(r: Rect)
  {
    r.left >= r.right || r.top >= r.bottom
  }

  /**
   * Rect.contains(x, y): the point lies in the half-open rectangle; an empty
   * rectangle contains nothing.
   */
  function Contains(r: Rect, x: int, y: int): bool
  {
    r.left < r.right && r.top < r.bottom && r.left <= x && x < r.right && r.top <= y && y < r.bottom
  }

  /** Float.toInt(): truncation toward zero. */
  function TruncateToInt(x: real): (n: int)
    ensures 0.0 <= x ==> 0 <= n && n as real <= x < n as real + 1.0
    ensures x < 0.0 ==> n <= 0 && n as real - 1.0 < x <= n as real
  {
    if 0.0 <= x then x.Floor else -((-x).Floor)
  }

  /**
   * The per-edge rounding of RectF.round (Android's FastMath.round): the
   * nearest integer, halves rounded up.
   */
  function RoundHalfUp(x: real): (n: int)
    ensures n as real - 0.5 <= x < n as real + 0.5
  {
    (x + 0.5).Floor
  }

  /** RectF.round(dst): every edge rounded to the nearest integer. */
  function Round(f: RectF): Rect
  {
    Rect(RoundHalfUp(f.left), RoundHalfUp(f.top), RoundHalfUp(f.right), RoundHalfUp(f.bottom))
  }

  /**
   * The square the pie is drawn in for a view of w by h pixels: radius
   * 0.4 * min(w, h) around the view's centre.
   */
  function PieBounds(w: int, h: int): RectF
  {
    var r := (if w <= h then w else h) as real * 0.4;
    var cx := w as real / 2.0;
    var cy := h as real / 2.0;
    RectF(cx - r, cy - r, cx + r, cy + r)
  }

  lemma RoundMonotone(x: real, y: real)
    requires x <= y
    ensures RoundHalfUp(x) <= RoundHalfUp(y)
  {
  }

  /**
   * For a view of non-negative size the rounded pie bounds lie inside the
   * view and are not inverted.
   */
  lemma PieBoundsInsideView(w: int, h: int)
    requires 0 <= w && 0 <= h
    ensures var b := Round(PieBounds(w, h));
      0 <= b.left <= b.right <= w && 0 <= b.top <= b.bottom <= h
  {
    var f := PieBounds(w, h);
    RoundMonotone(0.0, f.left);
    RoundMonotone(f.left, f.right);
    RoundMonotone(f.right, w as real);
    RoundMonotone(0.0, f.top);
    RoundMonotone(f.top, f.bottom);
    RoundMonotone(f.bottom, h as real);
  }

  /** A hit test against an empty rectangle, such as a view's bounds before its first resize, finds nothing. */
  lemma EmptyRectHitsNothing(r: Rect, x: int, y: int)
    requires IsEmpty(r)
    ensures !Contains(r, x, y)
  {
  }

  /**
   * Every point the rounded pie bounds contain lies inside the view, so a
   * hit test never accepts a point outside a view of non-negative size.
   */
  lemma HitRegionInsideView(w: int, h: int, x: int, y: int)
    requires 0 <= w && 0 <= h
    ensures Contains(Round(PieBounds(w, h)), x, y) ==> 0 <= x < w && 0 <= y < h
  {
    PieBoundsInsideView(w, h);
  }

  /**
   * The angle normalisation of getVirtualViewAt: a negative angle (in
   * degrees) gets 360 added, any other angle is kept.
   */
  function NormaliseDegrees(degrees: real): (angle: real)
    ensures angle == degrees || angle == degrees + 360.0
    ensures 0.0 <= degrees ==> angle == degrees
    ensures -360.0 <= degrees ==> 0.0 <= angle
    ensures -180.0 <= degrees <= 180.0 ==> 0.0 <= angle < 360.0
  {
    if degrees < 0.0 then degrees + 360.0 else degrees
  }
}
