/**
 * The template sketch. Its `Line.getLines` allocates a two-slot point array
 * and fills slots 0 and 2, so the single polyline it returns has length 3
 * with a hole at index 1. `Shape._draw` then walks every slot of every
 * polyline; the hole reads as `undefined`, and taking its coordinate throws a
 * `TypeError`. (The bounds `_minmax` computes are `NaN` as soon as a hole is
 * spread into `Math.min`/`Math.max`, but the throw discards them.)
 */
module Template {
  import opened Wrappers
  import opened Geometry
  import opened Normalization
  import Rng

  /** One array slot: a point, or a hole that was never assigned. */
  datatype Slot = Hole | Present(point: Point)

  /** Polylines as possibly sparse arrays of points. */
  type SparseLines = seq<seq<Slot>>

  /**
   * `_draw` reads `p[0]` of `undefined` at polyline `line`, slot `index`; or
   * the `Line` constructor's generator rejects the seed before any drawing.
   */
  datatype DrawError = UndefinedPoint(line: nat, index: nat) | InvalidSeed

  /** `getLines(canvasWidth, canvasHeight)`. */
  function GetLines(width: real, height: real): (r: SparseLines)
    ensures |r| == 1 && |r[0]| == 3
    ensures r[0][0] == Present((0.0, height / 2.0))
    ensures r[0][1] == Hole
    ensures r[0][2] == Present((width, height / 2.0))
  {
    [[Present((0.0, height / 2.0)), Hole, Present((width, height / 2.0))]]
  }

  /** No slot is a hole. */
  predicate Dense(ls: SparseLines) {
    forall i, j :: 0 <= i < |ls| && 0 <= j < |ls[i]| ==> ls[i][j].Present?
  }

  /** A dense set of slots as ordinary polylines. */
  function Densify(ls: SparseLines): (r: LineSet)
    requires Dense(ls)
    ensures |r| == |ls|
    ensures forall i :: 0 <= i < |ls| ==> |r[i]| == |ls[i]|
    ensures forall i, j :: 0 <= i < |ls| && 0 <= j < |ls[i]| ==> Present(r[i][j]) == ls[i][j]
  {
    seq(|ls|, i requires 0 <= i < |ls| =>
      seq(|ls[i]|, j requires 0 <= j < |ls[i]| => ls[i][j].point))
  }

  /** No hole among the first `j` slots of polyline `i`. */
  predicate DensePrefix(ls: SparseLines, i: nat, j: nat)
    requires i < |ls| && j <= |ls[i]|
  {
    forall k :: 0 <= k < j ==> ls[i][k].Present?
  }

  /** No hole in the first `i` polylines. */
  predicate DenseRows(ls: SparseLines, i: nat)
    requires i <= |ls|
  {
    forall a, k :: 0 <= a < i && 0 <= k < |ls[a]| ==> ls[a][k].Present?
  }

  /** `(i, j)` is the first hole the row-major walk of `_draw` meets. */
  predicate FirstHole(ls: SparseLines, i: nat, j: nat) {
    && i < |ls| && j < |ls[i]|
    && ls[i][j] == Hole
    && DenseRows(ls, i)
    && DensePrefix(ls, i, j)
  }

  /** The walk through polyline `i`: the first hole in it, if any. */
  method ScanLine(ls: SparseLines, i: nat) returns (r: Option<nat>)
    requires i < |ls|
    ensures r.None? <==> DensePrefix(ls, i, |ls[i]|)
    ensures r.Some? ==> r.value < |ls[i]| && ls[i][r.value] == Hole && DensePrefix(ls, i, r.value)
  {
    var j := 0;
    while j < |ls[i]|
      invariant 0 <= j <= |ls[i]|
      invariant DensePrefix(ls, i, j)
    {
      if ls[i][j] == Hole {
        return Some(j);
      }
      j := j + 1;
    }
    return None;
  }

  /** The row-major walk of `_draw` over every slot, stopping at the first hole. */
  method FindHole(ls: SparseLines) returns (r: Option<(nat, nat)>)
    ensures r.None? <==> Dense(ls)
    ensures r.Some? ==> FirstHole(ls, r.value.0, r.value.1)
  {
    var i := 0;
    while i < |ls|
      invariant 0 <= i <= |ls|
      invariant DenseRows(ls, i)
    {
      var hole := ScanLine(ls, i);
      if hole.Some? {
        return Some((i, hole.value));
      }
      i := i + 1;
    }
    return None;
  }

  /** There is only one first hole. */
  lemma FirstHoleUnique(ls: SparseLines, i: nat, j: nat, i': nat, j': nat)
    requires FirstHole(ls, i, j) && FirstHole(ls, i', j')
    ensures i == i' && j == j'
  {
  }

  /**
   * `_draw` on possibly sparse polylines: it throws at the first hole, and a
   * dense set is rescaled exactly as the shared normalisation does.
   */
  method Draw(ls: SparseLines, width: real, height: real, padding: real) returns (r: Result<LineSet, DrawError>)
    ensures r.Err? <==> !Dense(ls)
    ensures r.Err? ==> r.error.UndefinedPoint? && FirstHole(ls, r.error.line, r.error.index)
    ensures r.Ok? ==> SameShape(Densify(ls), r.value)
    ensures r.Ok? ==> r.value == Normalize(Densify(ls), width, height, padding)
  {
    var hole := FindHole(ls);
    match hole
    case Some((i, j)) => return Err(UndefinedPoint(i, j));
    case None => return Ok(Normalize(Densify(ls), width, height, padding));
  }

  /** The template's own polyline has its first hole at slot 1 of polyline 0. */
  lemma TemplateHole(width: real, height: real)
    ensures FirstHole(GetLines(width, height), 0, 1)
    ensures !Dense(GetLines(width, height))
  {
    var ls: SparseLines := GetLines(width, height);
    assert ls[0][0].Present?;
  }

  /**
   * `draw()` of the template: the `Line` constructor builds the generator
   * from the seed first, so an out-of-range seed throws there; any other
   * seed reaches `_draw`, which throws at slot 1 of polyline 0 whatever the
   * canvas.
   */
  method DrawTemplate(seed: real, width: real, height: real, padding: real) returns (r: Result<LineSet, DrawError>)
    ensures r.Err?
    ensures seed <= 0.0 || seed == Rng.MaxValue ==> r == Err(InvalidSeed)
    ensures !(seed <= 0.0 || seed == Rng.MaxValue) ==> r == Err(UndefinedPoint(0, 1))
  {
    match Rng.Create(seed)
    case Err(_) =>
      return Err(InvalidSeed);
    case Ok(_) =>
      TemplateHole(width, height);
      r := Draw(GetLines(width, height), width, height, padding);
      FirstHoleUnique(GetLines(width, height), r.error.line, r.error.index, 0, 1);
  }
}
