/**
 * The geometric data every generator produces: a point is an `(x, y)` pair,
 * a polyline an ordered sequence of points, and a line set the ordered
 * collection of polylines handed to the renderer.
 */
module Geometry {

  type Point = (real, real)
  type Polyline = seq<Point>
  type LineSet = seq<Polyline>

  /** The coordinate index `i` of `item[i]` in `_minmax`: 0 is x, 1 is y. */
  datatype Axis = X | Y

  function Coord(p: Point, axis: Axis): real {
    match axis
    case X => p.0
    case Y => p.1
  }

  /** True when the two line sets have the same number of polylines, each of the same length. */
  predicate SameShape(a: LineSet, b: LineSet) {
    |a| == |b| && forall i :: 0 <= i < |a| ==> |a[i]| == |b[i]|
  }

  /** Total number of points in a line set. */
  function PointCount(lines: LineSet): nat {
    if |lines| == 0 then 0 else |lines[0]| + PointCount(lines[1..])
  }

  /** The coordinates of one polyline on one axis, in order (`array[index].map(item => item[i])`). */
  function PolylineCoords(line: Polyline, axis: Axis): (r: seq<real>)
    ensures |r| == |line|
    ensures forall j :: 0 <= j < |line| ==> r[j] == Coord(line[j], axis)
  {
    if |line| == 0 then [] else [Coord(line[0], axis)] + PolylineCoords(line[1..], axis)
  }

  /** All coordinates of one axis, polyline after polyline, as `_minmax` concatenates them. */
  function Coords(lines: LineSet, axis: Axis): (r: seq<real>)
    ensures |r| == PointCount(lines)
  {
    if |lines| == 0 then [] else PolylineCoords(lines[0], axis) + Coords(lines[1..], axis)
  }

  /** A value is among the concatenated coordinates exactly when some point carries it. */
  lemma {:induction false} CoordsMembers(lines: LineSet, axis: Axis)
    ensures forall i, j :: 0 <= i < |lines| && 0 <= j < |lines[i]| ==>
      Coord(lines[i][j], axis) in Coords(lines, axis)
    ensures forall v :: v in Coords(lines, axis) ==>
      exists i, j :: 0 <= i < |lines| && 0 <= j < |lines[i]| && Coord(lines[i][j], axis) == v
  {
    if |lines| > 0 {
      CoordsMembers(lines[1..], axis);
      var head := PolylineCoords(lines[0], axis);
      var rest := Coords(lines[1..], axis);
      assert Coords(lines, axis) == head + rest;
      forall i, j | 0 <= i < |lines| && 0 <= j < |lines[i]|
        ensures Coord(lines[i][j], axis) in Coords(lines, axis)
      {
        if i == 0 {
          assert head[j] == Coord(lines[i][j], axis);
        } else {
          assert lines[i][j] == lines[1..][i - 1][j];
        }
      }
      forall v | v in Coords(lines, axis)
        ensures exists i, j :: 0 <= i < |lines| && 0 <= j < |lines[i]| && Coord(lines[i][j], axis) == v
      {
        if v in head {
          var j :| 0 <= j < |head| && head[j] == v;
          assert Coord(lines[0][j], axis) == v;
        } else {
          assert v in rest;
          var i, j :| 0 <= i < |lines[1..]| && 0 <= j < |lines[1..][i]| && Coord(lines[1..][i][j], axis) == v;
          assert lines[i + 1][j] == lines[1..][i][j];
        }
      }
    }
  }

  /** A line set has a point exactly when its concatenated coordinates are non-empty. */
  lemma {:induction false} PointCountPositive(lines: LineSet)
    ensures PointCount(lines) > 0 <==> exists i :: 0 <= i < |lines| && |lines[i]| > 0
  {
    if |lines| > 0 {
      PointCountPositive(lines[1..]);
      if |lines[0]| == 0 {
        forall i | 1 <= i < |lines| ensures lines[i] == lines[1..][i - 1] { }
      }
    }
  }
}
