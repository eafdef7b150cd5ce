/**
 * The normalisation step that every sketch's `Shape` runs before drawing:
 * `_minmax` finds the bounding interval of each axis over all points, and the
 * rescale loop of `_draw` maps every coordinate linearly into
 * `[padding, dimension - padding]` with `_rescaleCoord`. The four copies of
 * this code (one per sketch) are identical and are modelled once.
 */
module Normalization {
  import opened Geometry
  import opened JsMath

  /**
   * `_rescaleCoord(coord, min, max, a, b)`. A degenerate interval (`max == min`)
   * sends every value to 0, not to the middle of the target range.
   */
  function RescaleCoord(c: real, lo: real, hi: real, a: real, b: real): (r: real)
    ensures hi == lo ==> r == 0.0
    ensures hi != lo && c == lo ==> r == a
    ensures hi != lo && c == hi ==> r == b
    ensures lo < hi && a <= b && lo <= c <= hi ==> a <= r <= b
    ensures hi != lo ==> (r - a) * (hi - lo) == (c - lo) * (b - a)
  {
    if hi - lo == 0.0 then 0.0
    else
      PortionRatio(c - lo, b - a, hi - lo);
      if c == hi then
        PortionWhole(b - a, hi - lo);
        a + Portion(c - lo, b - a, hi - lo)
      else if lo < hi && a <= b && lo <= c <= hi then
        PortionWithin(c - lo, b - a, hi - lo);
        a + Portion(c - lo, b - a, hi - lo)
      else
        a + Portion(c - lo, b - a, hi - lo)
  }

  /** `x * w / d`: the share of the width `w` that `x` takes of `d`. */
  function Portion(x: real, w: real, d: real): real
    requires d != 0.0
  {
    x * w / d
  }

  /** The portion stands to `w` as `x` stands to `d`. */
  lemma PortionRatio(x: real, w: real, d: real)
    requires d != 0.0
    ensures Portion(x, w, d) * d == x * w
  {
  }

  lemma PortionWhole(w: real, d: real)
    requires d != 0.0
    ensures Portion(d, w, d) == w
  {
    var q := d / d;
    SelfDiv(d);
    MulDiv(d, w, d);
    assert Portion(d, w, d) == q * w;
  }

  lemma PortionWithin(x: real, w: real, d: real)
    requires 0.0 <= x <= d && d > 0.0 && 0.0 <= w
    ensures 0.0 <= Portion(x, w, d) <= w
  {
    var t := x / d;
    FractionAtMostOne(x, d);
    ScaleFraction(t, w);
    MulDiv(x, w, d);
    assert Portion(x, w, d) == t * w;
  }

  /** The pair `[min, max]` of a non-empty list, as `Math.min(...)` / `Math.max(...)` give it. */
  function MinMax(xs: seq<real>): (r: (real, real))
    requires |xs| > 0
    ensures r.0 in xs && r.1 in xs
    ensures forall v :: v in xs ==> r.0 <= v <= r.1
  {
    if |xs| == 1 then (xs[0], xs[0])
    else
      var (lo, hi) := MinMax(xs[1..]);
      assert forall v :: v in xs ==> v == xs[0] || v in xs[1..];
      (if xs[0] < lo then xs[0] else lo, if xs[0] > hi then xs[0] else hi)
  }

  /** `_minmax(lines, axis)`: the extreme coordinates of one axis over every point. */
  function Bounds(lines: LineSet, axis: Axis): (r: (real, real))
    requires PointCount(lines) > 0
    ensures forall i, j :: 0 <= i < |lines| && 0 <= j < |lines[i]| ==>
      r.0 <= Coord(lines[i][j], axis) <= r.1
    ensures exists i, j :: 0 <= i < |lines| && 0 <= j < |lines[i]| && Coord(lines[i][j], axis) == r.0
    ensures exists i, j :: 0 <= i < |lines| && 0 <= j < |lines[i]| && Coord(lines[i][j], axis) == r.1
  {
    CoordsMembers(lines, axis);
    MinMax(Coords(lines, axis))
  }

  /** One point through the rescale loop, given both axes' bounds. */
  function RescalePoint(p: Point, xb: (real, real), yb: (real, real), width: real, height: real, padding: real): Point {
    (RescaleCoord(p.0, xb.0, xb.1, padding, width - padding),
     RescaleCoord(p.1, yb.0, yb.1, padding, height - padding))
  }

  /** Every point of every polyline through `RescalePoint` with the same bounds. */
  function RescaleAll(lines: LineSet, xb: (real, real), yb: (real, real), width: real, height: real, padding: real)
    : (r: LineSet)
    ensures SameShape(lines, r)
    ensures forall i, j :: 0 <= i < |lines| && 0 <= j < |lines[i]| ==>
      r[i][j] == RescalePoint(lines[i][j], xb, yb, width, height, padding)
  {
    seq(|lines|, i requires 0 <= i < |lines| =>
      seq(|lines[i]|, j requires 0 <= j < |lines[i]| => RescalePoint(lines[i][j], xb, yb, width, height, padding)))
  }

  /**
   * What the rescale loop promises about point `p` and its image `q`: a
   * degenerate axis gives 0, the extremes go to the padded edges, and a
   * coordinate within the bounds lands within the padded canvas.
   */
  predicate Rescaled(p: Point, q: Point, xb: (real, real), yb: (real, real), width: real, height: real, padding: real) {
    && (xb.0 == xb.1 ==> q.0 == 0.0)
    && (yb.0 == yb.1 ==> q.1 == 0.0)
    && (xb.0 != xb.1 && p.0 == xb.0 ==> q.0 == padding)
    && (xb.0 != xb.1 && p.0 == xb.1 ==> q.0 == width - padding)
    && (yb.0 != yb.1 && p.1 == yb.0 ==> q.1 == padding)
    && (yb.0 != yb.1 && p.1 == yb.1 ==> q.1 == height - padding)
    && (xb.0 != xb.1 && xb.0 <= p.0 <= xb.1 && padding <= width - padding ==> padding <= q.0 <= width - padding)
    && (yb.0 != yb.1 && yb.0 <= p.1 <= yb.1 && padding <= height - padding ==> padding <= q.1 <= height - padding)
    && (xb.0 != xb.1 ==> (q.0 - padding) * (xb.1 - xb.0) == (p.0 - xb.0) * (width - padding - padding))
    && (yb.0 != yb.1 ==> (q.1 - padding) * (yb.1 - yb.0) == (p.1 - yb.0) * (height - padding - padding))
  }

  lemma RescalePointSpec(p: Point, xb: (real, real), yb: (real, real), width: real, height: real, padding: real)
    ensures Rescaled(p, RescalePoint(p, xb, yb, width, height, padding), xb, yb, width, height, padding)
  {
  }

  /** Every image the rescale loop computes is `Rescaled` from its point. */
  lemma RescaleAllSpec(lines: LineSet, xb: (real, real), yb: (real, real), width: real, height: real, padding: real)
    ensures forall i, j :: 0 <= i < |lines| && 0 <= j < |lines[i]| ==>
      Rescaled(lines[i][j], RescaleAll(lines, xb, yb, width, height, padding)[i][j], xb, yb, width, height, padding)
  {
    forall i, j | 0 <= i < |lines| && 0 <= j < |lines[i]|
      ensures Rescaled(lines[i][j], RescaleAll(lines, xb, yb, width, height, padding)[i][j], xb, yb, width, height, padding)
    {
      RescalePointSpec(lines[i][j], xb, yb, width, height, padding);
    }
  }

  /**
   * The rescale loop of `_draw`: every point of every polyline is replaced by
   * its rescaled image. With no point at all the loop body never runs (the
   * infinite bounds of an empty `Math.min`/`Math.max` are never used).
   */
  function Normalize(lines: LineSet, width: real, height: real, padding: real): (r: LineSet)
    ensures SameShape(lines, r)
    ensures PointCount(lines) > 0 ==>
      forall i, j :: 0 <= i < |lines| && 0 <= j < |lines[i]| ==>
        Rescaled(lines[i][j], r[i][j], Bounds(lines, X), Bounds(lines, Y), width, height, padding)
    ensures PointCount(lines) > 0 ==>
      forall i, j :: 0 <= i < |lines| && 0 <= j < |lines[i]| ==>
        && (Bounds(lines, X).0 != Bounds(lines, X).1 && padding <= width - padding ==> padding <= r[i][j].0 <= width - padding)
        && (Bounds(lines, Y).0 != Bounds(lines, Y).1 && padding <= height - padding ==> padding <= r[i][j].1 <= height - padding)
  {
    if PointCount(lines) == 0 then
      lines
    else
      RescaleAllSpec(lines, Bounds(lines, X), Bounds(lines, Y), width, height, padding);
      RescaleAll(lines, Bounds(lines, X), Bounds(lines, Y), width, height, padding)
  }
}
