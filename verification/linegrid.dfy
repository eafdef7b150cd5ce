/**
 * The noise-perturbed line grid of the first sketch (`LineGrid`). Each of
 * `nLines + 1` polylines has `2 * nPoints + 2` points; even-indexed points lie
 * on the grid baseline and odd-indexed points are pushed perpendicular to the
 * line by `scaleNoise * sin(pointIndex * increment + randomNormal())`. The
 * generator state is threaded through in the order the loops draw from it.
 */
module LineGrid {
  import opened Wrappers
  import opened JsMath
  import opened Geometry
  import opened Rng
  import opened Normalization

  /** `_getHorizontalLines` and `_getVerticalLines` are one generator over a direction. */
  datatype Direction = Horizontal | Vertical

  /** `increment`, `widthIncrement` and `heightIncrement` of `getLines`. */
  datatype Increments = Increments(increment: real, width: real, height: real)

  datatype GridParameters = GridParameters(
    nLines: nat,
    nPoints: nat,
    lineWidth: real,
    scaleNoise: real,
    randomSeed: real,
    orientation: string)

  datatype GridError = UnknownOrientation(orientation: string) | InvalidSeed

  /** Where point `p` of line `li` sits before any noise is added. */
  function Baseline(dir: Direction, li: nat, p: nat, inc: Increments): Point {
    match dir
    case Horizontal => (p as real * inc.width, li as real * inc.height)
    case Vertical => (li as real * inc.width, p as real * inc.height)
  }

  /** Moves a baseline point across the line: along y for horizontal lines, along x for vertical ones. */
  function Displace(dir: Direction, base: Point, offset: real): Point {
    match dir
    case Horizontal => (base.0, base.1 + offset)
    case Vertical => (base.0 + offset, base.1)
  }

  /** The noise offset `scaleNoise * sin(p * increment + z)` of an odd point. */
  function Offset(scaleNoise: real, p: nat, inc: Increments, z: real, ml: MathLib): real {
    scaleNoise * ml.sin(p as real * inc.increment + z)
  }

  /** The point the loops put at index `p` of line `li`, given the normal sample `z` it uses. */
  function GridPoint(dir: Direction, li: nat, p: nat, scaleNoise: real, inc: Increments, z: real, ml: MathLib): Point {
    if p % 2 == 0 then Baseline(dir, li, p, inc)
    else Displace(dir, Baseline(dir, li, p, inc), Offset(scaleNoise, p, inc, z, ml))
  }

  /** An even-indexed point does not depend on the sample passed for it. */
  lemma EvenIgnoresSample(dir: Direction, li: nat, p: nat, scaleNoise: real, inc: Increments,
                          z1: real, z2: real, ml: MathLib)
    requires p % 2 == 0
    ensures GridPoint(dir, li, p, scaleNoise, inc, z1, ml) == GridPoint(dir, li, p, scaleNoise, inc, z2, ml)
  {
  }

  /**
   * A source of normal samples threaded through the generator state. The
   * loops below are written against any sampler; the sketch's own sampler is
   * `randomNormal()` (`SketchSampler`).
   */
  type Sampler = Generator -> (real, Generator)

  function SketchSampler(ml: MathLib): Sampler {
    g => RandomNormal(g, ml)
  }

  /** The state after `k` samples. */
  function Skip(sample: Sampler, g: Generator, k: nat): Generator
    decreases k
  {
    if k == 0 then g else Skip(sample, sample(g).1, k - 1)
  }

  /** Sample number `k` (counting from 0). */
  function SampleNo(sample: Sampler, g: Generator, k: nat): real {
    sample(Skip(sample, g, k)).0
  }

  /** Skipping `a` samples and then `b` is skipping `a + b`. */
  lemma {:induction false} SkipAdd(sample: Sampler, g: Generator, a: nat, b: nat)
    ensures Skip(sample, Skip(sample, g, a), b) == Skip(sample, g, a + b)
    decreases a
  {
    if a > 0 {
      SkipAdd(sample, sample(g).1, a - 1, b);
    }
  }

  /** Sample `b` after skipping `a` is sample `a + b` of the whole stream. */
  lemma SampleNoShift(sample: Sampler, g: Generator, a: nat, b: nat)
    ensures SampleNo(sample, Skip(sample, g, a), b) == SampleNo(sample, g, a + b)
  {
    SkipAdd(sample, g, a, b);
  }

  /** For the sketch's sampler, skipping `k` samples is `k` calls of `randomNormal()`. */
  lemma {:induction false} SketchSkip(g: Generator, k: nat, ml: MathLib)
    ensures Skip(SketchSampler(ml), g, k) == AdvanceNormals(g, k)
    decreases k
  {
    if k > 0 {
      var g1 := RandomNormal(g, ml).1;
      assert g1 == NormalStep(g);
      SketchSkip(g1, k - 1, ml);
    }
  }

  /**
   * The sketch's sample number `k` is the value of the `k`-th `randomNormal()`
   * call; inside the generator invariant it is Box–Muller of uniform draws
   * `2k` and `2k + 1`.
   */
  lemma SketchSamples(g: Generator, k: nat, ml: MathLib)
    ensures SampleNo(SketchSampler(ml), g, k) == NormalAt(g, k, ml)
    ensures InRange(g) ==>
      SampleNo(SketchSampler(ml), g, k) == BoxMuller(ml, NthDraw(g, 2 * k), NthDraw(g, 2 * k + 1))
  {
    SketchSkip(g, k, ml);
    if InRange(g) {
      var h := AdvanceNormals(g, k);
      NormalsConsumeTwoDraws(g, k);
      RandomNormalValue(h, ml);
      AdvanceAdd(g, 2 * k, 0);
      AdvanceAdd(g, 2 * k, 1);
    }
  }

  /** The inner loop from point index `p` up to `count`, drawing a sample at each odd index. */
  function PointsFrom(dir: Direction, li: nat, p: nat, count: nat, scaleNoise: real, inc: Increments,
                      sample: Sampler, g: Generator, ml: MathLib): (Polyline, Generator)
    decreases count - p
  {
    if p >= count then ([], g)
    else if p % 2 == 0 then
      var rest := PointsFrom(dir, li, p + 1, count, scaleNoise, inc, sample, g, ml);
      ([GridPoint(dir, li, p, scaleNoise, inc, 0.0, ml)] + rest.0, rest.1)
    else
      var z := sample(g);
      var rest := PointsFrom(dir, li, p + 1, count, scaleNoise, inc, sample, z.1, ml);
      ([GridPoint(dir, li, p, scaleNoise, inc, z.0, ml)] + rest.0, rest.1)
  }

  /** The inner loop yields `count - p` points and takes `count / 2 - p / 2` samples. */
  lemma {:induction false} PointsFromLength(dir: Direction, li: nat, p: nat, count: nat, scaleNoise: real,
                                           inc: Increments, sample: Sampler, g: Generator, ml: MathLib)
    requires p <= count
    ensures |PointsFrom(dir, li, p, count, scaleNoise, inc, sample, g, ml).0| == count - p
    ensures PointsFrom(dir, li, p, count, scaleNoise, inc, sample, g, ml).1 == Skip(sample, g, count / 2 - p / 2)
    decreases count - p
  {
    if p < count {
      if p % 2 == 0 {
        PointsFromLength(dir, li, p + 1, count, scaleNoise, inc, sample, g, ml);
        assert (p + 1) / 2 == p / 2;
      } else {
        PointsFromLength(dir, li, p + 1, count, scaleNoise, inc, sample, sample(g).1, ml);
        assert (p + 1) / 2 == p / 2 + 1;
      }
    }
  }

  /** Point `j` of `pts` is point `p + j` of line `li`, placed with sample number `(p + j) / 2 - p / 2`. */
  predicate DrawOrdered(pts: Polyline, dir: Direction, li: nat, p: nat, scaleNoise: real, inc: Increments,
                        sample: Sampler, g: Generator, ml: MathLib) {
    forall j :: 0 <= j < |pts| ==>
      pts[j] == GridPoint(dir, li, p + j, scaleNoise, inc, SampleNo(sample, g, (p + j) / 2 - p / 2), ml)
  }

  /** The inner loop uses, at odd index `q`, sample number `q / 2 - p / 2` from where it started. */
  lemma {:induction false} PointsFromDrawOrder(dir: Direction, li: nat, p: nat, count: nat, scaleNoise: real,
                                              inc: Increments, sample: Sampler, g: Generator, ml: MathLib)
    requires p <= count
    ensures DrawOrdered(PointsFrom(dir, li, p, count, scaleNoise, inc, sample, g, ml).0,
                        dir, li, p, scaleNoise, inc, sample, g, ml)
    decreases count - p
  {
    if p < count {
      if p % 2 == 0 {
        PointsFromDrawOrder(dir, li, p + 1, count, scaleNoise, inc, sample, g, ml);
        var rest := PointsFrom(dir, li, p + 1, count, scaleNoise, inc, sample, g, ml).0;
        ConsEven(rest, dir, li, p, scaleNoise, inc, sample, g, ml);
      } else {
        PointsFromDrawOrder(dir, li, p + 1, count, scaleNoise, inc, sample, sample(g).1, ml);
        var rest := PointsFrom(dir, li, p + 1, count, scaleNoise, inc, sample, sample(g).1, ml).0;
        ConsOdd(rest, dir, li, p, scaleNoise, inc, sample, g, ml);
      }
    }
  }

  /** An even point needs no sample, so prepending it keeps the numbering. */
  lemma ConsEven(rest: Polyline, dir: Direction, li: nat, p: nat, scaleNoise: real, inc: Increments,
                 sample: Sampler, g: Generator, ml: MathLib)
    requires p % 2 == 0
    requires DrawOrdered(rest, dir, li, p + 1, scaleNoise, inc, sample, g, ml)
    ensures DrawOrdered([GridPoint(dir, li, p, scaleNoise, inc, 0.0, ml)] + rest, dir, li, p, scaleNoise, inc, sample, g, ml)
  {
    var pts := [GridPoint(dir, li, p, scaleNoise, inc, 0.0, ml)] + rest;
    forall j | 0 <= j < |pts|
      ensures pts[j] == GridPoint(dir, li, p + j, scaleNoise, inc, SampleNo(sample, g, (p + j) / 2 - p / 2), ml)
    {
      if j == 0 {
        EvenIgnoresSample(dir, li, p, scaleNoise, inc, 0.0, SampleNo(sample, g, 0), ml);
      } else {
        assert pts[j] == rest[j - 1];
        assert p + 1 + (j - 1) == p + j;
        assert (p + 1) / 2 == p / 2;
      }
    }
  }

  /** An odd point takes the next sample; the points after it count from the advanced state. */
  lemma ConsOdd(rest: Polyline, dir: Direction, li: nat, p: nat, scaleNoise: real, inc: Increments,
                sample: Sampler, g: Generator, ml: MathLib)
    requires p % 2 == 1
    requires DrawOrdered(rest, dir, li, p + 1, scaleNoise, inc, sample, sample(g).1, ml)
    ensures DrawOrdered([GridPoint(dir, li, p, scaleNoise, inc, sample(g).0, ml)] + rest,
                        dir, li, p, scaleNoise, inc, sample, g, ml)
  {
    var pts := [GridPoint(dir, li, p, scaleNoise, inc, sample(g).0, ml)] + rest;
    forall j | 0 <= j < |pts|
      ensures pts[j] == GridPoint(dir, li, p + j, scaleNoise, inc, SampleNo(sample, g, (p + j) / 2 - p / 2), ml)
    {
      if j == 0 {
        assert Skip(sample, g, 0) == g;
      } else {
        var k := (p + 1 + (j - 1)) / 2 - (p + 1) / 2;
        assert (p + j) / 2 - p / 2 == k + 1;
        assert SampleNo(sample, sample(g).1, k) == SampleNo(sample, g, k + 1);
        assert pts[j] == rest[j - 1];
        assert p + 1 + (j - 1) == p + j;
      }
    }
  }

  /** The outer loop from line index `li` up to `count` lines. */
  function LinesFrom(dir: Direction, li: nat, count: nat, nPoints: nat, scaleNoise: real, inc: Increments,
                     sample: Sampler, g: Generator, ml: MathLib): (LineSet, Generator)
    decreases count - li
  {
    if li >= count then ([], g)
    else
      var line := PointsFrom(dir, li, 0, 2 * nPoints + 2, scaleNoise, inc, sample, g, ml);
      var rest := LinesFrom(dir, li + 1, count, nPoints, scaleNoise, inc, sample, line.1, ml);
      ([line.0] + rest.0, rest.1)
  }

  /** The outer loop yields `count - li` lines and takes `nPoints + 1` samples per line. */
  lemma {:induction false} LinesFromLength(dir: Direction, li: nat, count: nat, nPoints: nat, scaleNoise: real,
                                          inc: Increments, sample: Sampler, g: Generator, ml: MathLib)
    requires li <= count
    ensures |LinesFrom(dir, li, count, nPoints, scaleNoise, inc, sample, g, ml).0| == count - li
    ensures LinesFrom(dir, li, count, nPoints, scaleNoise, inc, sample, g, ml).1
      == Skip(sample, g, (count - li) * (nPoints + 1))
    decreases count - li
  {
    if li < count {
      PointsFromLength(dir, li, 0, 2 * nPoints + 2, scaleNoise, inc, sample, g, ml);
      assert (2 * nPoints + 2) / 2 - 0 / 2 == nPoints + 1;
      LinesFromLength(dir, li + 1, count, nPoints, scaleNoise, inc, sample,
        PointsFrom(dir, li, 0, 2 * nPoints + 2, scaleNoise, inc, sample, g, ml).1, ml);
      SkipAdd(sample, g, nPoints + 1, (count - (li + 1)) * (nPoints + 1));
      SuccMul(count - (li + 1), nPoints + 1);
    }
  }

  /** Every polyline of `lines` has `m` points. */
  predicate EachOfLength(lines: LineSet, m: nat) {
    forall k :: 0 <= k < |lines| ==> |lines[k]| == m
  }

  /**
   * Point `q` of `lines[k]` is point `q` of line `li + k`, placed with sample
   * number `k * (nPoints + 1) + q / 2`.
   */
  predicate LinesOrdered(lines: LineSet, dir: Direction, li: nat, nPoints: nat, scaleNoise: real, inc: Increments,
                         sample: Sampler, g: Generator, ml: MathLib) {
    forall k, q :: 0 <= k < |lines| && 0 <= q < |lines[k]| ==>
      lines[k][q] == GridPoint(dir, li + k, q, scaleNoise, inc, SampleNo(sample, g, k * (nPoints + 1) + q / 2), ml)
  }

  /**
   * Line `li + k` has `2 * nPoints + 2` points and takes its samples after the
   * `k * (nPoints + 1)` samples of the lines before it.
   */
  lemma {:induction false} LinesFromDrawOrder(dir: Direction, li: nat, count: nat, nPoints: nat, scaleNoise: real,
                                             inc: Increments, sample: Sampler, g: Generator, ml: MathLib)
    requires li <= count
    ensures LinesOrdered(LinesFrom(dir, li, count, nPoints, scaleNoise, inc, sample, g, ml).0,
                         dir, li, nPoints, scaleNoise, inc, sample, g, ml)
    ensures EachOfLength(LinesFrom(dir, li, count, nPoints, scaleNoise, inc, sample, g, ml).0, 2 * nPoints + 2)
    decreases count - li
  {
    if li < count {
      var n := nPoints + 1;
      var lines := LinesFrom(dir, li, count, nPoints, scaleNoise, inc, sample, g, ml).0;
      PointsFromLength(dir, li, 0, 2 * nPoints + 2, scaleNoise, inc, sample, g, ml);
      PointsFromDrawOrder(dir, li, 0, 2 * nPoints + 2, scaleNoise, inc, sample, g, ml);
      var line := PointsFrom(dir, li, 0, 2 * nPoints + 2, scaleNoise, inc, sample, g, ml);
      assert (2 * nPoints + 2) / 2 == n;
      LinesFromDrawOrder(dir, li + 1, count, nPoints, scaleNoise, inc, sample, line.1, ml);
      var rest := LinesFrom(dir, li + 1, count, nPoints, scaleNoise, inc, sample, line.1, ml).0;
      assert lines == [line.0] + rest;
      assert EachOfLength(rest, 2 * nPoints + 2);
      assert |line.0| == 2 * nPoints + 2;
      ConsLine(line.0, rest, dir, li, nPoints, scaleNoise, inc, sample, g, ml);
    }
  }

  /** A line numbered from `g` followed by lines numbered after its `nPoints + 1` samples. */
  lemma ConsLine(line: Polyline, rest: LineSet, dir: Direction, li: nat, nPoints: nat, scaleNoise: real,
                 inc: Increments, sample: Sampler, g: Generator, ml: MathLib)
    requires DrawOrdered(line, dir, li, 0, scaleNoise, inc, sample, g, ml)
    requires LinesOrdered(rest, dir, li + 1, nPoints, scaleNoise, inc, sample, Skip(sample, g, nPoints + 1), ml)
    ensures LinesOrdered([line] + rest, dir, li, nPoints, scaleNoise, inc, sample, g, ml)
  {
    var lines := [line] + rest;
    forall k, q | 0 <= k < |lines| && 0 <= q < |lines[k]|
      ensures lines[k][q] == GridPoint(dir, li + k, q, scaleNoise, inc, SampleNo(sample, g, k * (nPoints + 1) + q / 2), ml)
    {
      if k == 0 {
        assert lines[0] == line;
        FirstLinePoint(line, dir, li, nPoints, scaleNoise, inc, sample, g, ml, q);
      } else {
        assert lines[k] == rest[k - 1];
        LaterLinePoint(rest, dir, li, nPoints, scaleNoise, inc, sample, g, ml, k, q);
      }
    }
  }

  /** Point `q` of the first line, as numbered from `g`. */
  lemma FirstLinePoint(line: Polyline, dir: Direction, li: nat, nPoints: nat, scaleNoise: real,
                       inc: Increments, sample: Sampler, g: Generator, ml: MathLib, q: nat)
    requires DrawOrdered(line, dir, li, 0, scaleNoise, inc, sample, g, ml)
    requires q < |line|
    ensures line[q] == GridPoint(dir, li + 0, q, scaleNoise, inc, SampleNo(sample, g, 0 * (nPoints + 1) + q / 2), ml)
  {
    assert line[q] == GridPoint(dir, li, 0 + q, scaleNoise, inc, SampleNo(sample, g, (0 + q) / 2 - 0 / 2), ml);
  }

  /** Point `q` of line `li + k` in the lines after the first, renumbered from `g`. */
  lemma LaterLinePoint(rest: LineSet, dir: Direction, li: nat, nPoints: nat, scaleNoise: real,
                       inc: Increments, sample: Sampler, g: Generator, ml: MathLib, k: nat, q: nat)
    requires LinesOrdered(rest, dir, li + 1, nPoints, scaleNoise, inc, sample, Skip(sample, g, nPoints + 1), ml)
    requires 1 <= k <= |rest| && q < |rest[k - 1]|
    ensures rest[k - 1][q] == GridPoint(dir, li + k, q, scaleNoise, inc, SampleNo(sample, g, k * (nPoints + 1) + q / 2), ml)
  {
    var n := nPoints + 1;
    var i := (k - 1) * n + q / 2;
    assert rest[k - 1][q] == GridPoint(dir, li + 1 + (k - 1), q, scaleNoise, inc, SampleNo(sample, Skip(sample, g, n), i), ml);
    SampleNoShift(sample, g, n, i);
    SuccMul(k - 1, n);
  }

  lemma SuccMul(a: nat, n: nat)
    ensures n + a * n == (a + 1) * n
  {
  }

  /**
   * One orientation's line set (`_getHorizontalLines` / `_getVerticalLines`):
   * `nLines + 1` polylines of `2 * nPoints + 2` points, point `p` of line `li`
   * placed with sample number `li * (nPoints + 1) + p / 2`, and
   * `(nLines + 1) * (nPoints + 1)` samples taken in all.
   */
  function Lines(dir: Direction, nLines: nat, nPoints: nat, scaleNoise: real, inc: Increments,
                 sample: Sampler, g: Generator, ml: MathLib): (r: (LineSet, Generator))
    ensures |r.0| == nLines + 1
    ensures forall li :: 0 <= li < |r.0| ==> |r.0[li]| == 2 * nPoints + 2
    ensures forall li, p :: 0 <= li < |r.0| && 0 <= p < |r.0[li]| ==>
      r.0[li][p] == GridPoint(dir, li, p, scaleNoise, inc, SampleNo(sample, g, li * (nPoints + 1) + p / 2), ml)
    ensures r.1 == Skip(sample, g, (nLines + 1) * (nPoints + 1))
  {
    LinesFromLength(dir, 0, nLines + 1, nPoints, scaleNoise, inc, sample, g, ml);
    LinesFromDrawOrder(dir, 0, nLines + 1, nPoints, scaleNoise, inc, sample, g, ml);
    LinesFrom(dir, 0, nLines + 1, nPoints, scaleNoise, inc, sample, g, ml)
  }

  /**
   * Even-indexed points lie on the grid baseline; odd point `p` of line `li`
   * is pushed across the line by `scaleNoise * sin(p * increment + z)`, where
   * `z` is sample number `li * (nPoints + 1) + p / 2` (for the sketch's
   * sampler, `SketchSamples` gives its value).
   */
  lemma LinesPoints(dir: Direction, nLines: nat, nPoints: nat, scaleNoise: real, inc: Increments,
                    sample: Sampler, g: Generator, ml: MathLib, li: nat, p: nat)
    requires li <= nLines && p < 2 * nPoints + 2
    ensures var lines := Lines(dir, nLines, nPoints, scaleNoise, inc, sample, g, ml).0;
      var z := SampleNo(sample, g, li * (nPoints + 1) + p / 2);
      && (p % 2 == 0 ==> lines[li][p] == Baseline(dir, li, p, inc))
      && (p % 2 == 1 ==> lines[li][p] == Displace(dir, Baseline(dir, li, p, inc), Offset(scaleNoise, p, inc, z, ml)))
  {
    var lines := Lines(dir, nLines, nPoints, scaleNoise, inc, sample, g, ml).0;
    var z := SampleNo(sample, g, li * (nPoints + 1) + p / 2);
    assert lines[li][p] == GridPoint(dir, li, p, scaleNoise, inc, z, ml);
  }

  /**
   * With the sketch's sampler and inside the generator invariant, one
   * orientation consumes `2 * (nLines + 1) * (nPoints + 1)` uniform draws.
   */
  lemma LinesDrawCount(dir: Direction, nLines: nat, nPoints: nat, scaleNoise: real, inc: Increments,
                       g: Generator, ml: MathLib)
    requires InRange(g)
    ensures Lines(dir, nLines, nPoints, scaleNoise, inc, SketchSampler(ml), g, ml).1
      == Advance(g, 2 * ((nLines + 1) * (nPoints + 1)))
  {
    SketchSkip(g, (nLines + 1) * (nPoints + 1), ml);
    NormalsConsumeTwoDraws(g, (nLines + 1) * (nPoints + 1));
  }

  /** With `scaleNoise == 0` the noise term vanishes and every point lies on its baseline. */
  lemma NoiselessPointsOnBaseline(dir: Direction, nLines: nat, nPoints: nat, inc: Increments,
                                  sample: Sampler, g: Generator, ml: MathLib)
    ensures var lines := Lines(dir, nLines, nPoints, 0.0, inc, sample, g, ml).0;
      forall li, p :: 0 <= li < |lines| && 0 <= p < |lines[li]| ==> lines[li][p] == Baseline(dir, li, p, inc)
  {
  }

  /** Division by zero yields an infinity or NaN in JavaScript; the model requires the divisors used to be non-zero. */
  predicate DivisorsNonZero(orientation: string, nLines: nat, nPoints: nat) {
    (orientation == "vertical" || orientation == "horizontal" ==> nLines > 0 && nPoints > 0)
    && (orientation == "both" ==> nLines > 0)
  }

  /**
   * `getLines(canvasWidth, canvasHeight)`: dispatch on the orientation. For
   * `both`, the vertical set is built first and the horizontal set continues
   * from the generator it left; the result is their concatenation. Any other
   * orientation throws.
   */
  function GetLines(params: GridParameters, width: real, height: real, g: Generator, ml: MathLib)
    : (r: Result<(LineSet, Generator), GridError>)
    requires DivisorsNonZero(params.orientation, params.nLines, params.nPoints)
    ensures r.Err? <==> params.orientation !in {"vertical", "horizontal", "both"}
    ensures r.Err? ==> r.error == UnknownOrientation(params.orientation)
    ensures params.orientation == "vertical" ==>
      r == Ok(Lines(Vertical, params.nLines, params.nPoints, params.scaleNoise,
        Increments(Increment(params), width / params.nLines as real, height / (2 * params.nPoints) as real), SketchSampler(ml), g, ml))
    ensures params.orientation == "horizontal" ==>
      r == Ok(Lines(Horizontal, params.nLines, params.nPoints, params.scaleNoise,
        Increments(Increment(params), width / (2 * params.nPoints) as real, height / params.nLines as real), SketchSampler(ml), g, ml))
    ensures params.orientation == "both" ==>
      var vertical := Lines(Vertical, params.nLines, params.nPoints, params.scaleNoise,
        Increments(Increment(params), width / params.nLines as real, height / (2 * params.nPoints + 1) as real), SketchSampler(ml), g, ml);
      var horizontal := Lines(Horizontal, params.nLines, params.nPoints, params.scaleNoise,
        Increments(Increment(params), width / (2 * params.nPoints + 1) as real, height / params.nLines as real),
        SketchSampler(ml), vertical.1, ml);
      && r == Ok((vertical.0 + horizontal.0, horizontal.1))
      && |r.value.0| == 2 * (params.nLines + 1)
  {
    var increment := Increment(params);
    if params.orientation == "vertical" then
      Ok(Lines(Vertical, params.nLines, params.nPoints, params.scaleNoise,
        Increments(increment, width / params.nLines as real, height / (2 * params.nPoints) as real), SketchSampler(ml), g, ml))
    else if params.orientation == "horizontal" then
      Ok(Lines(Horizontal, params.nLines, params.nPoints, params.scaleNoise,
        Increments(increment, width / (2 * params.nPoints) as real, height / params.nLines as real), SketchSampler(ml), g, ml))
    else if params.orientation == "both" then
      var (vertical, g1) := Lines(Vertical, params.nLines, params.nPoints, params.scaleNoise,
        Increments(increment, width / params.nLines as real, height / (2 * params.nPoints + 1) as real), SketchSampler(ml), g, ml);
      var (horizontal, g2) := Lines(Horizontal, params.nLines, params.nPoints, params.scaleNoise,
        Increments(increment, width / (2 * params.nPoints + 1) as real, height / params.nLines as real), SketchSampler(ml), g1, ml);
      Ok((vertical + horizontal, g2))
    else
      Err(UnknownOrientation(params.orientation))
  }

  /** `increment = 2 * nPoints / 360`. */
  function Increment(params: GridParameters): real {
    2.0 * params.nPoints as real / 360.0
  }

  /**
   * `Shape.draw` followed by `_draw`: build the generator from the seed (the
   * constructor's own guard, `Rng.Create`), get the lines and normalise them
   * into the canvas. The call fails exactly when the seed is rejected or the
   * orientation is unknown, and the seed is checked first.
   */
  function DrawGrid(params: GridParameters, width: real, height: real, padding: real, ml: MathLib)
    : (r: Result<LineSet, GridError>)
    requires DivisorsNonZero(params.orientation, params.nLines, params.nPoints)
    ensures r.Err? <==> (params.randomSeed <= 0.0 || params.randomSeed == MaxValue
                         || params.orientation !in {"vertical", "horizontal", "both"})
    ensures params.randomSeed <= 0.0 || params.randomSeed == MaxValue ==> r == Err(InvalidSeed)
    ensures !(params.randomSeed <= 0.0 || params.randomSeed == MaxValue)
            && params.orientation !in {"vertical", "horizontal", "both"} ==>
      r == Err(UnknownOrientation(params.orientation))
    ensures r.Ok? ==>
      var raw := GetLines(params, width, height, Generator(params.randomSeed), ml).value.0;
      r.value == Normalize(raw, width, height, padding) && SameShape(raw, r.value)
  {
    match Create(params.randomSeed)
    case Err(_) => Err(InvalidSeed)
    case Ok(g) =>
      match GetLines(params, width, height, g, ml)
      case Err(e) => Err(e)
      case Ok((lines, _)) => Ok(Normalize(lines, width, height, padding))
  }
}
