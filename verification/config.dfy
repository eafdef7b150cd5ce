/**
 * The configuration tables and defaults shared by the sketches: the
 * A-series paper table, the default canvas size, and the parameter
 * defaults of the roulette sketch and of the template sketch, each with the
 * slider range it is declared with.
 */
module Config {
  import opened Wrappers
  import opened JsMath
  import Rng

  /** Millimetres to pixels. */
  const PX: real := 3.7795275591

  /** One entry of `paperSizes`, in millimetres. */
  datatype Paper = Paper(width: real, height: real)

  /** `paperSizes[key]`: the table has entries for A2 to A5 only. */
  function PaperSize(key: int): (r: Option<Paper>)
    ensures r.Some? <==> 2 <= key <= 5
    ensures r.Some? ==> 0.0 < r.value.width < r.value.height
  {
    if key == 2 then Some(Paper(420.0, 594.0))
    else if key == 3 then Some(Paper(297.0, 420.0))
    else if key == 4 then Some(Paper(210.0, 297.0))
    else if key == 5 then Some(Paper(148.0, 210.0))
    else None
  }

  /**
   * The ISO 216 relation between neighbouring entries: A(k+1) is A(k) cut
   * in half across its long side, rounded down to the millimetre.
   */
  lemma PaperHalving(k: int)
    requires 2 <= k <= 4
    ensures PaperSize(k + 1).value.height == PaperSize(k).value.width
    ensures PaperSize(k + 1).value.width == (PaperSize(k).value.height / 2.0).Floor as real
  {
  }

  /** A slider-backed setting: the current value and its declared bounds and step. */
  datatype Setting = Setting(value: real, min: real, max: real, step: real)

  predicate Within(s: Setting) {
    s.min <= s.value <= s.max
  }

  /** The canvas settings object of `initialzeCanvasSize` (GUI handles left out). */
  datatype CanvasSize = CanvasSize(
    paperSize: int,
    widthMargin: real,
    cols: real,
    rows: real,
    heightMargin: real,
    width: Setting,
    height: Setting,
    padding: Setting)

  /**
   * The canvas size `_adjustCanvasSize` computes from the paper size, margins
   * and grid: `(paper.width - widthMargin) / cols * PX` by
   * `(paper.height - heightMargin) / rows * PX`. A paper key outside the
   * table is a property read of `undefined`, which throws.
   */
  function AdjustedSize(c: CanvasSize): (r: Option<(real, real)>)
    requires c.cols != 0.0 && c.rows != 0.0
    ensures r.Some? <==> PaperSize(c.paperSize).Some?
    ensures r.Some? && c.cols > 0.0 && c.widthMargin < PaperSize(c.paperSize).value.width ==> r.value.0 > 0.0
    ensures r.Some? && c.rows > 0.0 && c.heightMargin < PaperSize(c.paperSize).value.height ==> r.value.1 > 0.0
  {
    match PaperSize(c.paperSize)
    case None => None
    case Some(paper) =>
      var w := (paper.width - c.widthMargin) / c.cols;
      var h := (paper.height - c.heightMargin) / c.rows;
      Some((w * PX, h * PX))
  }

  /** `initialzeCanvasSize()`. */
  function DefaultCanvasSize(): (c: CanvasSize)
    ensures c.paperSize == 4 && c.cols == 2.0 && c.rows == 3.0
    ensures Within(c.width) && Within(c.height) && Within(c.padding)
  {
    CanvasSize(
      4, 30.0, 2.0, 3.0, 50.0,
      Setting((210.0 - 30.0) / 2.0 * PX, 100.0, 10000.0, 1.0),
      Setting((297.0 - 50.0) / 3.0 * PX, 100.0, 10000.0, 1.0),
      Setting(0.0, 0.0, 1000.0, 1.0))
  }

  /** The default width and height are what `_adjustCanvasSize` computes from the default settings. */
  lemma DefaultCanvasMatchesAdjust()
    ensures AdjustedSize(DefaultCanvasSize()) == Some((DefaultCanvasSize().width.value, DefaultCanvasSize().height.value))
  {
  }

  /** The roulette sketch's `ShapeParameters` (GUI handles left out). */
  datatype ShapeParameters = ShapeParameters(
    lineWidth: Setting,
    radiusOne: Setting,
    radiusTwo: Setting,
    distance: Setting,
    segmentMultiplier: Setting,
    nPoints: Setting,
    shapeType: real)

  /** `initialzeShapeParameters()`: every default lies inside its declared range. */
  function DefaultShapeParameters(): (p: ShapeParameters)
    ensures Within(p.lineWidth) && Within(p.radiusOne) && Within(p.radiusTwo)
    ensures Within(p.distance) && Within(p.segmentMultiplier) && Within(p.nPoints)
    ensures p.shapeType == 0.0
    ensures p.radiusTwo.min > 0.0 && p.nPoints.min > 0.0
  {
    ShapeParameters(
      Setting(0.20, 0.005, 1.00, 0.001),
      Setting(0.001, 0.001, 10.00, 0.001),
      Setting(0.1, 0.001, 10.00, 0.001),
      Setting(0.001, 0.001, 100.0, 0.001),
      Setting(100.00, 1.00, 1000.00, 1.00),
      Setting(6.0, 2.0, 500.0, 1.0),
      0.0)
  }

  /** The template sketch's `LineParameters` (GUI handles left out). */
  datatype LineParameters = LineParameters(randomSeed: real, lineWidth: Setting)

  /**
   * `initialzeLineParameters()`: the line width lies in its range, and the
   * default seed 1234 is accepted by the constructor guard and lies in the
   * generator invariant.
   */
  function DefaultLineParameters(): (p: LineParameters)
    ensures Within(p.lineWidth)
    ensures Rng.Create(p.randomSeed).Ok? && Rng.CreateBounded(p.randomSeed).Ok?
    ensures Rng.InRange(Rng.Generator(p.randomSeed))
  {
    LineParameters(1234.0, Setting(0.20, 0.005, 1.00, 0.001))
  }
}
