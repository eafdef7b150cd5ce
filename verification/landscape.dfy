/**
 * The third sketch end to end: `Line.getLines` builds the heightmap with
 * `_createTerrain`, sets the step `r = angle / terrainSize` and extracts
 * the horizon lines; `Shape._draw` then min-max normalises them into the
 * canvas.
 */
module LandscapeSketch {
  import opened Wrappers
  import opened Geometry
  import opened Normalization
  import opened Terrain
  import opened Horizon

  /** The `Line` constructor's settings (line width and seed left out). */
  datatype LineSettings = LineSettings(terrainSize: nat, randomness: real, surface: real, angle: real)

  /** The landscape `getLines` draws over a heightmap `terrain`. */
  function LandscapeOf(s: LineSettings, terrain: Grid): (l: Landscape)
    requires s.terrainSize >= 1
    ensures l.size == s.terrainSize && l.terrain == terrain && l.surface == s.surface
    ensures l.r * s.terrainSize as real == s.angle
  {
    Landscape(terrain, s.terrainSize, s.angle / s.terrainSize as real, s.surface)
  }

  /**
   * `getLines()`: a size that is not a power of two throws while the terrain
   * is built; otherwise the result is the projection of the maximal runs of
   * visible cells over the heightmap `_createTerrain` returned (`terrain`,
   * `Displaced` over the passes `passes`), whose heights are non-negative
   * and, with no randomness, all 0.
   */
  method GetLines(s: LineSettings, randomInt: nat -> real)
    returns (r: Result<LineSet, TerrainError>, ghost terrain: Grid, ghost passes: seq<Grid>)
    requires s.terrainSize >= 1
    ensures r.Err? <==> !IsPowerOfTwo(s.terrainSize)
    ensures r.Ok? ==> Displaced(s.terrainSize, s.randomness, randomInt, passes, terrain)
    ensures r.Ok? ==> IsGrid(terrain, s.terrainSize + 1)
    ensures r.Ok? ==> forall i, j :: 0 <= i <= s.terrainSize && 0 <= j <= s.terrainSize ==> terrain[i][j] >= 0.0
    ensures r.Ok? && s.randomness == 0.0 ==> Flat(terrain, s.terrainSize + 1)
    ensures r.Ok? ==> AllInGrid(LandscapeOf(s, terrain), HorizonCells(LandscapeOf(s, terrain)))
    ensures r.Ok? ==> r.value == ProjectRuns(LandscapeOf(s, terrain), HorizonCells(LandscapeOf(s, terrain)))
  {
    var created;
    created, passes := CreateTerrain(s.terrainSize, s.randomness, randomInt);
    match created
    case Err(e) =>
      terrain := [];
      return Err(e), terrain, passes;
    case Ok(grid) =>
      terrain := grid;
      var l := LandscapeOf(s, grid);
      var lines := ExtractLines(l);
      return Ok(lines), terrain, passes;
  }

  /**
   * On a flat heightmap with a positive step, row 0 lies on the initial
   * buffer and every later row rises above all earlier ones, so a cell is
   * drawn exactly when its row is a whole multiple of `surface` other than 0.
   */
  lemma FlatVisible(l: Landscape, w: nat, z: nat)
    requires Valid(l) && w <= l.size && z <= l.size && l.r > 0.0
    requires Flat(l.terrain, l.size + 1)
    ensures Visible(l, w, z) <==> w >= 1 && WholeQuotient(w, l.surface)
  {
    assert l.terrain[z][w] == 0.0;
    if w >= 1 {
      FlatAboveCeiling(l, w, z);
    }
  }

  /** On a flat heightmap every row after the first rises above the column's ceiling. */
  lemma FlatAboveCeiling(l: Landscape, w: nat, z: nat)
    requires Valid(l) && 1 <= w <= l.size && z <= l.size && l.r > 0.0
    requires Flat(l.terrain, l.size + 1)
    ensures Ceiling(l, w, z) < Height(l, w, z)
  {
    CeilingIsMax(l, w, z);
    var c := Ceiling(l, w, z);
    FlatHeight(l, w, z);
    RowsRise(l.r, 0, w);
    if c != 0.0 {
      var w': nat :| w' < w && Visible(l, w', z) && Height(l, w', z) == c;
      FlatHeight(l, w', z);
      RowsRise(l.r, w', w);
    }
  }

  /** The height of row `w` on a flat heightmap. */
  function RowHeight(r: real, w: nat): real {
    r * 0.66 * w as real
  }

  lemma FlatHeight(l: Landscape, w: nat, z: nat)
    requires Valid(l) && w <= l.size && z <= l.size
    requires Flat(l.terrain, l.size + 1)
    ensures Height(l, w, z) == RowHeight(l.r, w)
  {
    assert l.terrain[z][w] == 0.0;
  }

  lemma RowsRise(r: real, lower: nat, upper: nat)
    requires r > 0.0 && lower < upper
    ensures RowHeight(r, lower) < RowHeight(r, upper)
  {
    var d := (upper - lower) as real;
    assert r * 0.66 * upper as real - r * 0.66 * lower as real == r * 0.66 * d;
  }

  /** The cells of each horizon polyline, in drawing order. */
  function HorizonCells(l: Landscape): seq<seq<Cell>>
    requires Valid(l)
  {
    Runs(VisibleRows(l, l.size + 1))
  }

  /** Along every run the cells are consecutive columns of one row. */
  predicate RowRuns(runs: seq<seq<Cell>>) {
    forall k, j :: 0 <= k < |runs| && 0 <= j < |runs[k]| - 1 ==> Adjacent(runs[k][j], runs[k][j + 1])
  }

  /** No polyline is empty. */
  predicate NonEmptyLines(lines: LineSet) {
    forall k :: 0 <= k < |lines| ==> |lines[k]| > 0
  }

  /** Along every polyline `x` advances by exactly `step` from point to point. */
  predicate StepsBy(lines: LineSet, step: real) {
    forall k, j :: 0 <= k < |lines| && 0 <= j < |lines[k]| - 1 ==> lines[k][j + 1].0 == lines[k][j].0 + step
  }

  /**
   * The shape of the horizon polylines: none is empty, each is a run of
   * consecutive columns of one row, so `x` advances by exactly `r` from
   * point to point.
   */
  lemma PolylineSteps(l: Landscape)
    requires Valid(l) && AllInGrid(l, HorizonCells(l))
    ensures RowRuns(HorizonCells(l))
    ensures NonEmptyLines(ProjectRuns(l, HorizonCells(l)))
    ensures StepsBy(ProjectRuns(l, HorizonCells(l)), l.r)
  {
    RunsAdjacent(VisibleRows(l, l.size + 1));
    ProjectedSteps(l, HorizonCells(l));
  }

  lemma ProjectedSteps(l: Landscape, runs: seq<seq<Cell>>)
    requires Valid(l) && AllInGrid(l, runs) && RowRuns(runs)
    requires forall k :: 0 <= k < |runs| ==> |runs[k]| > 0
    ensures NonEmptyLines(ProjectRuns(l, runs))
    ensures StepsBy(ProjectRuns(l, runs), l.r)
  {
    var lines: LineSet := ProjectRuns(l, runs);
    forall k, j | 0 <= k < |lines| && 0 <= j < |lines[k]| - 1
      ensures lines[k][j + 1].0 == lines[k][j].0 + l.r
    {
      var a, b := runs[k][j], runs[k][j + 1];
      assert Adjacent(a, b);
      assert lines[k][j] == Project(l, a) && lines[k][j + 1] == Project(l, b);
      ColumnStep(l.r, a.1);
    }
  }

  lemma ColumnStep(r: real, z: nat)
    ensures -100.0 + r * (z + 1) as real == -100.0 + r * z as real + r
  {
  }

  /** With a positive step, `x` strictly increases along every horizon polyline. */
  lemma PolylinesIncreasing(l: Landscape, k: nat, j: nat)
    requires Valid(l) && AllInGrid(l, HorizonCells(l)) && l.r > 0.0
    requires k < |HorizonCells(l)| && j + 1 < |HorizonCells(l)[k]|
    ensures ProjectRuns(l, HorizonCells(l))[k][j].0 < ProjectRuns(l, HorizonCells(l))[k][j + 1].0
  {
    PolylineSteps(l);
  }

  /**
   * `draw()` followed by `_draw`: the horizon lines min-max normalised into
   * `padding .. width - padding` by `padding .. height - padding`; the
   * normalised lines have the shape of the extracted ones.
   */
  method Draw(s: LineSettings, randomInt: nat -> real, width: real, height: real, padding: real)
    returns (r: Result<LineSet, TerrainError>, ghost terrain: Grid, ghost passes: seq<Grid>)
    requires s.terrainSize >= 1
    ensures r.Err? <==> !IsPowerOfTwo(s.terrainSize)
    ensures r.Ok? ==> Displaced(s.terrainSize, s.randomness, randomInt, passes, terrain)
    ensures r.Ok? ==> IsGrid(terrain, s.terrainSize + 1)
    ensures r.Ok? ==> AllInGrid(LandscapeOf(s, terrain), HorizonCells(LandscapeOf(s, terrain)))
    ensures r.Ok? ==> SameShape(ProjectRuns(LandscapeOf(s, terrain), HorizonCells(LandscapeOf(s, terrain))), r.value)
    ensures r.Ok? ==> r.value == Normalize(ProjectRuns(LandscapeOf(s, terrain), HorizonCells(LandscapeOf(s, terrain))), width, height, padding)
  {
    var lines;
    lines, terrain, passes := GetLines(s, randomInt);
    match lines
    case Err(e) => return Err(e), terrain, passes;
    case Ok(ls) => return Ok(Normalize(ls, width, height, padding)), terrain, passes;
  }
}
