/**
 * The roulette curves of the second sketch: a hypotrochoid or an epitrochoid
 * sampled at `multiplier * nPoints + 1` parameter values `t = i / nPoints`
 * (one full turn per unit of `t`), emitted as a single polyline, and the
 * `shapeType` dispatch of `Shape.draw` that builds one of them and
 * normalises it into the canvas.
 */
module Roulette {
  import opened Wrappers
  import opened JsMath
  import opened Geometry
  import opened Normalization
  import Config

  datatype Kind = Hypotrochoid | Epitrochoid

  /** A `RouletteCurve` with its constructor arguments. */
  datatype Curve = Curve(kind: Kind, radiusOne: real, radiusTwo: real, distance: real, nPoints: real, multiplier: real)

  /** `new Array(n)` throws a `RangeError` unless `n` is an integer in `[0, 2^32 - 1]`. */
  datatype CurveError = InvalidArrayLength(length: real)

  predicate ValidArrayLength(n: real) {
    IsIntegral(n) && 0.0 <= n < TwoTo32 as real
  }

  /** `Hypotrochoid.radiusDifference = |radiusOne - radiusTwo|`. */
  function RadiusDifference(c: Curve): (r: real)
    ensures r >= 0.0
    ensures r == c.radiusOne - c.radiusTwo || r == c.radiusTwo - c.radiusOne
  {
    if c.radiusOne >= c.radiusTwo then c.radiusOne - c.radiusTwo else c.radiusTwo - c.radiusOne
  }

  /** `Epitrochoid.radiusSum = radiusOne + radiusTwo`. */
  function RadiusSum(c: Curve): real {
    c.radiusOne + c.radiusTwo
  }

  /** The rolling-circle radius term each curve uses. */
  function Radius(c: Curve): real {
    match c.kind
    case Hypotrochoid => RadiusDifference(c)
    case Epitrochoid => RadiusSum(c)
  }

  /** `angle = (PI / 180) * t * 360`: one full turn per unit of `t`. */
  function Angle(t: real, ml: MathLib): real {
    (ml.pi / 180.0) * t * 360.0
  }

  /**
   * `getPoint(t)`. The hypotrochoid adds the pen term to x and subtracts it
   * from y; the epitrochoid subtracts it from both.
   */
  function GetPoint(c: Curve, t: real, ml: MathLib): Point
    requires c.radiusTwo != 0.0
  {
    var angle := Angle(t, ml);
    var d := Radius(c);
    var inner := InnerAngle(c, angle);
    match c.kind
    case Hypotrochoid => (d * ml.cos(angle) + c.distance * ml.cos(inner), d * ml.sin(angle) - c.distance * ml.sin(inner))
    case Epitrochoid => (d * ml.cos(angle) - c.distance * ml.cos(inner), d * ml.sin(angle) - c.distance * ml.sin(inner))
  }

  /** The pen's angle `(d * angle) / radiusTwo`, with `d` the curve's radius term. */
  function InnerAngle(c: Curve, angle: real): real
    requires c.radiusTwo != 0.0
  {
    Radius(c) * angle / c.radiusTwo
  }

  /**
   * At `t = 0` the curves start on the x axis: the hypotrochoid at
   * `radiusDifference + distance`, the epitrochoid at `radiusSum - distance`.
   */
  lemma GetPointAtZero(c: Curve, ml: MathLib)
    requires Lawful(ml) && c.radiusTwo != 0.0
    ensures c.kind == Hypotrochoid ==> GetPoint(c, 0.0, ml) == (RadiusDifference(c) + c.distance, 0.0)
    ensures c.kind == Epitrochoid ==> GetPoint(c, 0.0, ml) == (RadiusSum(c) - c.distance, 0.0)
  {
    var angle := Angle(0.0, ml);
    assert angle == 0.0;
    var inner := InnerAngle(c, angle);
    assert inner == 0.0;
    var d := Radius(c);
    assert d * ml.cos(angle) == d && d * ml.sin(angle) == 0.0;
    assert c.distance * ml.cos(inner) == c.distance && c.distance * ml.sin(inner) == 0.0;
    var p := GetPoint(c, 0.0, ml);
    if c.kind == Hypotrochoid {
      assert p.0 == d + c.distance && p.1 == 0.0 - 0.0;
    } else {
      assert p.0 == d - c.distance && p.1 == 0.0 - 0.0;
    }
  }

  /**
   * `getPoints(n, multiplier)`: an array of `multiplier * n + 1` points whose
   * `i`-th entry is `getPoint(i / n)`.
   */
  method GetPoints(c: Curve, n: real, multiplier: real, ml: MathLib) returns (r: Result<Polyline, CurveError>)
    requires c.radiusTwo != 0.0 && n != 0.0
    ensures r.Err? <==> !ValidArrayLength(multiplier * n + 1.0)
    ensures r.Err? ==> r.error == InvalidArrayLength(multiplier * n + 1.0)
    ensures r.Ok? ==> |r.value| as real == multiplier * n + 1.0
    ensures r.Ok? ==> forall i :: 0 <= i < |r.value| ==> r.value[i] == GetPoint(c, i as real / n, ml)
  {
    var length := multiplier * n + 1.0;
    if !ValidArrayLength(length) {
      return Err(InvalidArrayLength(length));
    }
    var count: nat := length.Floor;
    var points: Polyline := [];
    var index := 0;
    while index < count
      invariant 0 <= index <= count
      invariant |points| == index
      invariant forall i :: 0 <= i < index ==> points[i] == GetPoint(c, i as real / n, ml)
    {
      points := points + [GetPoint(c, index as real / n, ml)];
      index := index + 1;
    }
    return Ok(points);
  }

  /** `getLines`: exactly one polyline, the sampled curve. */
  method GetLines(c: Curve, ml: MathLib) returns (r: Result<LineSet, CurveError>)
    requires c.radiusTwo != 0.0 && c.nPoints != 0.0
    ensures r.Err? <==> !ValidArrayLength(c.multiplier * c.nPoints + 1.0)
    ensures r.Err? ==> r.error == InvalidArrayLength(c.multiplier * c.nPoints + 1.0)
    ensures r.Ok? ==> |r.value| == 1
    ensures r.Ok? ==> |r.value[0]| as real == c.multiplier * c.nPoints + 1.0
    ensures r.Ok? ==> forall i :: 0 <= i < |r.value[0]| ==> r.value[0][i] == GetPoint(c, i as real / c.nPoints, ml)
  {
    var points := GetPoints(c, c.nPoints, c.multiplier, ml);
    match points
    case Err(e) => return Err(e);
    case Ok(line) => return Ok([line]);
  }

  /** The first sample of a non-empty curve is its start point at `t = 0`. */
  lemma FirstSampleIsStart(c: Curve, ml: MathLib, line: Polyline)
    requires c.radiusTwo != 0.0 && c.nPoints != 0.0 && Lawful(ml)
    requires |line| > 0 && line[0] == GetPoint(c, 0 as real / c.nPoints, ml)
    ensures c.kind == Hypotrochoid ==> line[0] == (RadiusDifference(c) + c.distance, 0.0)
    ensures c.kind == Epitrochoid ==> line[0] == (RadiusSum(c) - c.distance, 0.0)
  {
    assert 0 as real / c.nPoints == 0.0;
    GetPointAtZero(c, ml);
  }

  /** The curve `draw` builds for a shape type, if any: 0 is a hypotrochoid, 1 an epitrochoid. */
  function CurveFor(p: Config.ShapeParameters): (r: Option<Curve>)
    ensures r.Some? <==> p.shapeType == 0.0 || p.shapeType == 1.0
    ensures r.Some? ==> (r.value.kind == Hypotrochoid <==> p.shapeType == 0.0)
    ensures r.Some? ==> r.value.radiusOne == p.radiusOne.value && r.value.radiusTwo == p.radiusTwo.value
    ensures r.Some? ==> r.value.distance == p.distance.value
    ensures r.Some? ==> r.value.nPoints == p.nPoints.value && r.value.multiplier == p.segmentMultiplier.value
  {
    var kind := if p.shapeType == 0.0 then Some(Hypotrochoid) else if p.shapeType == 1.0 then Some(Epitrochoid) else None;
    match kind
    case None => None
    case Some(k) =>
      Some(Curve(k, p.radiusOne.value, p.radiusTwo.value, p.distance.value, p.nPoints.value, p.segmentMultiplier.value))
  }

  /** The first `count` samples `getPoint(i / nPoints)` of a curve, as one polyline. */
  function Samples(c: Curve, count: nat, ml: MathLib): (r: Polyline)
    requires c.radiusTwo != 0.0 && c.nPoints != 0.0
    ensures |r| == count
  {
    seq(count, i => GetPoint(c, i as real / c.nPoints, ml))
  }

  /**
   * `Shape.draw` followed by `_draw`: shape type 0 or 1 yields the curve's
   * `multiplier * nPoints + 1` samples as one polyline normalised into the
   * canvas, or the `RangeError` of `new Array` when that length is not a
   * valid array length; any other shape type draws nothing and raises
   * nothing (`Ok(None)`).
   */
  method Draw(p: Config.ShapeParameters, width: real, height: real, padding: real, ml: MathLib)
    returns (r: Result<Option<LineSet>, CurveError>)
    requires p.radiusTwo.value != 0.0 && p.nPoints.value != 0.0
    ensures r == Ok(None) <==> p.shapeType != 0.0 && p.shapeType != 1.0
    ensures r.Err? <==> (p.shapeType == 0.0 || p.shapeType == 1.0)
                        && !ValidArrayLength(p.segmentMultiplier.value * p.nPoints.value + 1.0)
    ensures r.Err? ==> r.error == InvalidArrayLength(p.segmentMultiplier.value * p.nPoints.value + 1.0)
    ensures r.Ok? && r.value.Some? ==>
      && CurveFor(p).Some?
      && ValidArrayLength(p.segmentMultiplier.value * p.nPoints.value + 1.0)
      && r.value.value == Normalize([Samples(CurveFor(p).value, (p.segmentMultiplier.value * p.nPoints.value + 1.0).Floor, ml)],
                                    width, height, padding)
    ensures r.Ok? && r.value.Some? ==>
      && |r.value.value| == 1
      && |r.value.value[0]| as real == p.segmentMultiplier.value * p.nPoints.value + 1.0
  {
    var curve := CurveFor(p);
    match curve
    case None => return Ok(None);
    case Some(c) =>
      assert c.multiplier * c.nPoints == p.segmentMultiplier.value * p.nPoints.value;
      var lines := GetLines(c, ml);
      match lines
      case Err(e) =>
        return Err(e);
      case Ok(ls) =>
        var count := (c.multiplier * c.nPoints + 1.0).Floor;
        assert |ls[0]| == count;
        var samples := Samples(c, count, ml);
        assert forall i :: 0 <= i < count ==> ls[0][i] == samples[i];
        assert ls[0] == samples;
        assert ls == [samples];
        var normalised := Normalize(ls, width, height, padding);
        assert SameShape(ls, normalised);
        assert |normalised[0]| == |ls[0]|;
        return Ok(Some(normalised));
  }
}
