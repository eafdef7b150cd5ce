/**
 * The horizon extraction of the third sketch (`Line.getLines`). Row `w` of
 * the heightmap is drawn at height `r * 0.66 * w + terrain[z][w]` for each
 * column `z`; a cell is drawn only when it rises above everything drawn
 * before it in its column (the `dummyLine` buffer, initially 0) and is not
 * a flat gap. Each maximal run of drawn cells within a row becomes one
 * polyline.
 *
 * The reference side defines which cells are visible (`Ceiling`, `Visible`),
 * lists them in drawing order (`VisibleRows`) and splits that list into
 * maximal runs of adjacent cells (`Runs`); `ExtractLines` is the pen-up /
 * pen-down loop and is proved to produce exactly the projected runs.
 */
module Horizon {
  import opened JsMath
  import opened Geometry
  import Terrain

  /** A heightmap cell `(w, z)`: `w` is the row being drawn, `z` the column. */
  type Cell = (nat, nat)

  /** The heightmap, its size `N`, the step `r = angle / N` and the `surface` spacing. */
  datatype Landscape = Landscape(terrain: seq<seq<real>>, size: nat, r: real, surface: real)

  predicate Valid(l: Landscape) {
    Terrain.IsGrid(l.terrain, l.size + 1)
  }

  predicate InGrid(l: Landscape, c: Cell) {
    c.0 <= l.size && c.1 <= l.size
  }

  function Last<T>(s: seq<T>): T
    requires |s| > 0
  {
    s[|s| - 1]
  }

  /** `ye`: the drawn height of cell `(w, z)`. */
  function Height(l: Landscape, w: nat, z: nat): real
    requires Valid(l) && w <= l.size && z <= l.size
  {
    l.r * 0.66 * w as real + l.terrain[z][w]
  }

  /**
   * `w / surface === ((w / surface) | 0)`: the quotient survives the 32-bit
   * conversion. A zero `surface` gives `Infinity` or `NaN`, which never do.
   */
  predicate WholeQuotient(w: nat, surface: real) {
    surface != 0.0 && w as real / surface == ToInt32(w as real / surface) as real
  }

  /** For a positive integer spacing (and rows below `2^31`), the whole quotients are the multiples of the spacing. */
  lemma WholeQuotientMultiples(w: nat, k: nat)
    requires k >= 1 && w < TwoTo31
    ensures WholeQuotient(w, k as real) <==> w % k == 0
  {
    if w % k == 0 {
      MultipleIsWhole(w, k);
    } else if WholeQuotient(w, k as real) {
      WholeIsMultiple(w, k);
    }
  }

  lemma MultipleIsWhole(w: nat, k: nat)
    requires k >= 1 && w < TwoTo31 && w % k == 0
    ensures WholeQuotient(w, k as real)
  {
    var m := w / k;
    assert w == m * k;
    assert w as real == m as real * k as real;
    assert w as real / k as real == m as real;
    assert m <= w;
    assert Trunc(m as real) == m;
  }

  lemma WholeIsMultiple(w: nat, k: nat)
    requires k >= 1 && WholeQuotient(w, k as real)
    ensures w % k == 0
  {
    var q := w as real / k as real;
    var m := ToInt32(q);
    assert q * k as real == w as real;
    assert (m * k) as real == m as real * k as real;
    assert w == m * k;
    MultipleMod(m, k);
  }

  lemma MultipleMod(m: int, k: nat)
    requires k >= 1
    ensures (m * k) % k == 0
  {
    var p := m * k;
    var d := m - p / k;
    assert d * k == p % k;
  }

  /** A flat cell (height exactly 0) on a row that is not a whole multiple of `surface`: never drawn. */
  predicate Gap(l: Landscape, w: nat, z: nat)
    requires Valid(l) && w <= l.size && z <= l.size
  {
    l.terrain[z][w] == 0.0 && !WholeQuotient(w, l.surface)
  }

  /** `dummyLine[z]` when row `w` starts: the height last drawn in column `z`, or 0. */
  function Ceiling(l: Landscape, w: nat, z: nat): real
    requires Valid(l) && w <= l.size + 1 && z <= l.size
    decreases w, 0
  {
    if w == 0 then 0.0
    else if Visible(l, w - 1, z) then Height(l, w - 1, z)
    else Ceiling(l, w - 1, z)
  }

  /** The pen draws cell `(w, z)`. */
  predicate Visible(l: Landscape, w: nat, z: nat)
    requires Valid(l) && w <= l.size && z <= l.size
    decreases w, 1
  {
    !(Height(l, w, z) <= Ceiling(l, w, z) || Gap(l, w, z))
  }

  /** The buffer only grows: row by row, a column's ceiling never drops. */
  lemma {:induction false} CeilingMonotone(l: Landscape, w: nat, w': nat, z: nat)
    requires Valid(l) && w <= w' <= l.size + 1 && z <= l.size
    ensures Ceiling(l, w, z) <= Ceiling(l, w', z)
    decreases w' - w
  {
    if w < w' {
      CeilingMonotone(l, w, w' - 1, z);
    }
  }

  /**
   * The ceiling is the highest cell drawn so far in the column: it bounds
   * every earlier drawn cell, and it is 0 or the height of one of them.
   */
  lemma {:induction false} CeilingIsMax(l: Landscape, w: nat, z: nat)
    requires Valid(l) && w <= l.size + 1 && z <= l.size
    ensures Ceiling(l, w, z) >= 0.0
    ensures forall w': nat :: w' < w && Visible(l, w', z) ==> Height(l, w', z) <= Ceiling(l, w, z)
    ensures Ceiling(l, w, z) == 0.0 || exists w': nat :: w' < w && Visible(l, w', z) && Height(l, w', z) == Ceiling(l, w, z)
  {
    if w > 0 {
      CeilingIsMax(l, w - 1, z);
    }
  }

  /**
   * The occlusion rule without the buffer: a cell is drawn exactly when it
   * is not a gap, lies above 0, and rises strictly above every cell drawn
   * earlier in its column.
   */
  lemma VisibleIff(l: Landscape, w: nat, z: nat)
    requires Valid(l) && w <= l.size && z <= l.size
    ensures Visible(l, w, z) <==>
      && !Gap(l, w, z)
      && Height(l, w, z) > 0.0
      && forall w': nat :: w' < w && Visible(l, w', z) ==> Height(l, w', z) < Height(l, w, z)
  {
    CeilingIsMax(l, w, z);
  }

  /** The drawn cells of row `w` among the first `z` columns, left to right. */
  function VisibleRow(l: Landscape, w: nat, z: nat): seq<Cell>
    requires Valid(l) && w <= l.size && z <= l.size + 1
  {
    if z == 0 then []
    else VisibleRow(l, w, z - 1) + (if Visible(l, w, z - 1) then [(w, z - 1)] else [])
  }

  /** The drawn cells of the first `w` rows, in drawing order. */
  function VisibleRows(l: Landscape, w: nat): seq<Cell>
    requires Valid(l) && w <= l.size + 1
  {
    if w == 0 then []
    else VisibleRows(l, w - 1) + VisibleRow(l, w - 1, l.size + 1)
  }

  lemma {:induction false} VisibleRowMembers(l: Landscape, w: nat, z: nat)
    requires Valid(l) && w <= l.size && z <= l.size + 1
    ensures forall c :: c in VisibleRow(l, w, z) <==> c.0 == w && c.1 < z && Visible(l, w, c.1)
  {
    if z > 0 {
      VisibleRowMembers(l, w, z - 1);
    }
  }

  /** A cell is listed exactly when it lies in the first `w` rows and is visible. */
  lemma {:induction false} VisibleRowsMembers(l: Landscape, w: nat)
    requires Valid(l) && w <= l.size + 1
    ensures forall c :: c in VisibleRows(l, w) <==> c.0 < w && c.1 <= l.size && Visible(l, c.0, c.1)
  {
    if w > 0 {
      VisibleRowsMembers(l, w - 1);
      VisibleRowMembers(l, w - 1, l.size + 1);
    }
  }

  /** Consecutive cells of one row: the pen stays down between them. */
  predicate Adjacent(a: Cell, b: Cell) {
    a.0 == b.0 && b.1 == a.1 + 1
  }

  /** Splits a list of cells into its maximal runs of adjacent cells. */
  function Runs(s: seq<Cell>): (r: seq<seq<Cell>>)
    ensures |r| > 0 <==> |s| > 0
    ensures forall k :: 0 <= k < |r| ==> |r[k]| > 0
    ensures |s| > 0 ==> Last(Last(r)) == Last(s)
    decreases |s|
  {
    if |s| == 0 then []
    else
      var prev := Runs(s[..|s| - 1]);
      if |s| >= 2 && Adjacent(s[|s| - 2], s[|s| - 1]) then
        prev[..|prev| - 1] + [Last(prev) + [Last(s)]]
      else
        prev + [[Last(s)]]
  }

  function Flatten(runs: seq<seq<Cell>>): seq<Cell>
    decreases |runs|
  {
    if |runs| == 0 then [] else Flatten(runs[..|runs| - 1]) + Last(runs)
  }

  lemma FlattenSnoc(runs: seq<seq<Cell>>, run: seq<Cell>)
    ensures Flatten(runs + [run]) == Flatten(runs) + run
  {
    assert (runs + [run])[..|runs|] == runs;
  }

  /** The runs use every cell exactly once and in order. */
  lemma {:induction false} RunsFlatten(s: seq<Cell>)
    ensures Flatten(Runs(s)) == s
    decreases |s|
  {
    if |s| > 0 {
      var init := s[..|s| - 1];
      var prev := Runs(init);
      RunsFlatten(init);
      if |s| >= 2 && Adjacent(s[|s| - 2], s[|s| - 1]) {
        var front := prev[..|prev| - 1];
        assert prev == front + [Last(prev)];
        FlattenSnoc(front, Last(prev));
        FlattenSnoc(front, Last(prev) + [Last(s)]);
      } else {
        FlattenSnoc(prev, [Last(s)]);
      }
      assert init + [Last(s)] == s;
    }
  }

  /** Inside a run every cell is adjacent to the next. */
  lemma {:induction false} RunsAdjacent(s: seq<Cell>)
    ensures forall k, j :: 0 <= k < |Runs(s)| && 0 <= j < |Runs(s)[k]| - 1 ==> Adjacent(Runs(s)[k][j], Runs(s)[k][j + 1])
    decreases |s|
  {
    if |s| > 0 {
      var init := s[..|s| - 1];
      RunsAdjacent(init);
      if |s| >= 2 {
        assert Last(init) == s[|s| - 2];
      }
    }
  }

  /** Runs are maximal: the last cell of a run is never adjacent to the first cell of the next. */
  lemma {:induction false} RunsMaximal(s: seq<Cell>)
    ensures forall k :: 0 <= k < |Runs(s)| - 1 ==> !Adjacent(Last(Runs(s)[k]), Runs(s)[k + 1][0])
    decreases |s|
  {
    if |s| > 0 {
      var init := s[..|s| - 1];
      RunsMaximal(init);
      if |s| >= 2 {
        assert Last(init) == s[|s| - 2];
      }
    }
  }

  /** The point `[-100 + xe, 100 - ye]` pushed for a drawn cell. */
  function Project(l: Landscape, c: Cell): Point
    requires Valid(l) && InGrid(l, c)
  {
    (-100.0 + l.r * c.1 as real, 100.0 - Height(l, c.0, c.1))
  }

  predicate RunInGrid(l: Landscape, run: seq<Cell>) {
    forall c :: c in run ==> InGrid(l, c)
  }

  function ProjectRun(l: Landscape, run: seq<Cell>): (r: Polyline)
    requires Valid(l) && RunInGrid(l, run)
    ensures |r| == |run|
    ensures forall j :: 0 <= j < |run| ==> r[j] == Project(l, run[j])
  {
    seq(|run|, j requires 0 <= j < |run| => Project(l, run[j]))
  }

  predicate AllInGrid(l: Landscape, runs: seq<seq<Cell>>) {
    forall k :: 0 <= k < |runs| ==> RunInGrid(l, runs[k])
  }

  function ProjectRuns(l: Landscape, runs: seq<seq<Cell>>): (r: LineSet)
    requires Valid(l) && AllInGrid(l, runs)
    ensures |r| == |runs|
    ensures forall k :: 0 <= k < |runs| ==> r[k] == ProjectRun(l, runs[k])
  {
    seq(|runs|, k requires 0 <= k < |runs| => ProjectRun(l, runs[k]))
  }

  /** Closing a pending run: flushed only when non-empty. */
  function Close(done: seq<seq<Cell>>, pending: seq<Cell>): seq<seq<Cell>> {
    if |pending| == 0 then done else done + [pending]
  }

  /** Drawing one more visible cell extends the pending run or starts a new one. */
  lemma RunsSnoc(s: seq<Cell>, c: Cell)
    ensures Runs(s + [c]) ==
      if |s| > 0 && Adjacent(Last(s), c) then Runs(s)[..|Runs(s)| - 1] + [Last(Runs(s)) + [c]]
      else Runs(s) + [[c]]
  {
    assert (s + [c])[..|s|] == s;
  }

  /** The buffer entry after row `w`: the cell's height if it was drawn, the old entry otherwise. */
  lemma CeilingStep(l: Landscape, w: nat, z: nat)
    requires Valid(l) && w <= l.size && z <= l.size
    ensures Ceiling(l, w + 1, z) == if Visible(l, w, z) then Height(l, w, z) else Ceiling(l, w, z)
  {
  }

  lemma ProjectRunSnoc(l: Landscape, run: seq<Cell>, c: Cell)
    requires Valid(l) && RunInGrid(l, run) && InGrid(l, c)
    ensures RunInGrid(l, run + [c])
    ensures ProjectRun(l, run + [c]) == ProjectRun(l, run) + [Project(l, c)]
  {
  }

  lemma ProjectRunsSnoc(l: Landscape, runs: seq<seq<Cell>>, run: seq<Cell>)
    requires Valid(l) && AllInGrid(l, runs) && RunInGrid(l, run)
    ensures AllInGrid(l, runs + [run])
    ensures ProjectRuns(l, runs + [run]) == ProjectRuns(l, runs) + [ProjectRun(l, run)]
  {
  }

  /** The drawn cells before cell `(w, z)`, in drawing order. */
  function DrawnBefore(l: Landscape, w: nat, z: nat): seq<Cell>
    requires Valid(l) && w <= l.size && z <= l.size + 1
  {
    VisibleRows(l, w) + VisibleRow(l, w, z)
  }

  /** A hidden cell leaves the drawn list unchanged. */
  lemma HiddenCell(l: Landscape, w: nat, z: nat)
    requires Valid(l) && w <= l.size && z <= l.size && !Visible(l, w, z)
    ensures DrawnBefore(l, w, z + 1) == DrawnBefore(l, w, z)
  {
    assert VisibleRow(l, w, z + 1) == VisibleRow(l, w, z) + [];
  }

  /** Every drawn cell before `(w, z)` is visible and comes earlier in drawing order. */
  lemma DrawnCellVisible(l: Landscape, w: nat, z: nat, c: Cell)
    requires Valid(l) && w <= l.size && z <= l.size + 1 && c in DrawnBefore(l, w, z)
    ensures c.0 < w || (c.0 == w && c.1 < z)
    ensures InGrid(l, c) && Visible(l, c.0, c.1)
  {
    VisibleRowsMembers(l, w);
    VisibleRowMembers(l, w, z);
  }

  /**
   * Appending a cell to a list whose runs are the flushed runs plus the
   * pending one: the cell joins the pending run when it is adjacent to the
   * list's last cell, and starts a new run otherwise.
   */
  lemma ExtendRuns(before: seq<Cell>, done: seq<seq<Cell>>, pending: seq<Cell>, c: Cell)
    requires Close(done, pending) == Runs(before)
    requires |pending| > 0 ==> |before| > 0 && Adjacent(Last(before), c)
    requires |pending| == 0 && |before| > 0 ==> !Adjacent(Last(before), c)
    ensures Close(done, pending + [c]) == Runs(before + [c])
  {
    if |pending| > 0 {
      JoinRun(before, done, pending, c);
    } else {
      StartRun(before, c);
      assert pending + [c] == [c];
    }
  }

  lemma JoinRun(before: seq<Cell>, done: seq<seq<Cell>>, pending: seq<Cell>, c: Cell)
    requires Runs(before) == done + [pending]
    requires |before| > 0 && Adjacent(Last(before), c)
    ensures Runs(before + [c]) == done + [pending + [c]]
  {
    RunsSnoc(before, c);
    assert Runs(before)[..|Runs(before)| - 1] == done;
  }

  lemma StartRun(before: seq<Cell>, c: Cell)
    requires |before| > 0 ==> !Adjacent(Last(before), c)
    ensures Runs(before + [c]) == Runs(before) + [[c]]
  {
    RunsSnoc(before, c);
  }

  /**
   * A visible cell extends the pending run when the previous column was
   * drawn (the pen is down), and starts a new run otherwise.
   */
  lemma VisibleCell(l: Landscape, w: nat, z: nat, done: seq<seq<Cell>>, pending: seq<Cell>)
    requires Valid(l) && w <= l.size && z <= l.size && Visible(l, w, z)
    requires Close(done, pending) == Runs(DrawnBefore(l, w, z))
    requires |pending| > 0 ==> z > 0 && Last(pending) == (w, z - 1)
    requires |pending| == 0 ==> z == 0 || !Visible(l, w, z - 1)
    ensures Close(done, pending + [(w, z)]) == Runs(DrawnBefore(l, w, z + 1))
  {
    DrawnAppend(l, w, z);
    if |pending| > 0 {
      PendingEndsList(DrawnBefore(l, w, z), done, pending);
    } else {
      PenUpNotAdjacent(l, w, z);
    }
    ExtendRuns(DrawnBefore(l, w, z), done, pending, (w, z));
  }

  /** A pending run ends with the last cell of the list. */
  lemma PendingEndsList(before: seq<Cell>, done: seq<seq<Cell>>, pending: seq<Cell>)
    requires |pending| > 0 && Close(done, pending) == Runs(before)
    ensures |before| > 0 && Last(before) == Last(pending)
  {
  }

  /** With the pen up, the last drawn cell is not the previous column of this row. */
  lemma PenUpNotAdjacent(l: Landscape, w: nat, z: nat)
    requires Valid(l) && w <= l.size && z <= l.size
    requires z == 0 || !Visible(l, w, z - 1)
    ensures |DrawnBefore(l, w, z)| > 0 ==> !Adjacent(Last(DrawnBefore(l, w, z)), (w, z))
  {
    if |DrawnBefore(l, w, z)| > 0 {
      DrawnCellVisible(l, w, z, Last(DrawnBefore(l, w, z)));
    }
  }

  lemma DrawnAppend(l: Landscape, w: nat, z: nat)
    requires Valid(l) && w <= l.size && z <= l.size && Visible(l, w, z)
    ensures DrawnBefore(l, w, z + 1) == DrawnBefore(l, w, z) + [(w, z)]
  {
    assert VisibleRow(l, w, z + 1) == VisibleRow(l, w, z) + [(w, z)];
  }

  /** `dummyLine` when row `w` starts. */
  function Ceilings(l: Landscape, w: nat): (r: seq<real>)
    requires Valid(l) && w <= l.size + 1
    ensures |r| == l.size + 1
  {
    seq(l.size + 1, i requires 0 <= i <= l.size => Ceiling(l, w, i))
  }

  /** `dummyLine` in the middle of row `w`: the columns before `z` already hold the row's result. */
  function Buffer(l: Landscape, w: nat, z: nat): (r: seq<real>)
    requires Valid(l) && w <= l.size && z <= l.size + 1
    ensures |r| == l.size + 1
  {
    Ceilings(l, w + 1)[..z] + Ceilings(l, w)[z..]
  }

  lemma BufferEnds(l: Landscape, w: nat)
    requires Valid(l) && w <= l.size
    ensures Buffer(l, w, 0) == Ceilings(l, w)
    ensures Buffer(l, w, l.size + 1) == Ceilings(l, w + 1)
  {
    assert Ceilings(l, w)[0..] == Ceilings(l, w);
    assert Ceilings(l, w + 1)[..l.size + 1] == Ceilings(l, w + 1);
  }

  lemma BufferStep(l: Landscape, w: nat, z: nat)
    requires Valid(l) && w <= l.size && z <= l.size
    ensures Buffer(l, w, z)[z] == Ceiling(l, w, z)
    ensures Buffer(l, w, z + 1) == Buffer(l, w, z)[z := Ceiling(l, w + 1, z)]
  {
    var b := Buffer(l, w, z)[z := Ceiling(l, w + 1, z)];
    forall i | 0 <= i <= l.size
      ensures Buffer(l, w, z + 1)[i] == b[i]
    {
    }
  }

  /** The hidden-cell step: the pen lifts and a pending run is flushed. */
  lemma HiddenStep(l: Landscape, w: nat, z: nat, dummyLine: seq<real>)
    requires Valid(l) && w <= l.size && z <= l.size && dummyLine == Buffer(l, w, z)
    requires Height(l, w, z) <= dummyLine[z] || Gap(l, w, z)
    ensures !Visible(l, w, z)
    ensures DrawnBefore(l, w, z + 1) == DrawnBefore(l, w, z)
    ensures dummyLine == Buffer(l, w, z + 1)
  {
    BufferStep(l, w, z);
    HiddenCell(l, w, z);
    CeilingStep(l, w, z);
    assert dummyLine[z := Ceiling(l, w + 1, z)] == dummyLine;
  }

  /** The visible-cell step: the buffer entry becomes the cell's height. */
  lemma VisibleStep(l: Landscape, w: nat, z: nat, dummyLine: seq<real>)
    requires Valid(l) && w <= l.size && z <= l.size && dummyLine == Buffer(l, w, z)
    requires !(Height(l, w, z) <= dummyLine[z] || Gap(l, w, z))
    ensures Visible(l, w, z)
    ensures dummyLine[z := Height(l, w, z)] == Buffer(l, w, z + 1)
  {
    BufferStep(l, w, z);
    CeilingStep(l, w, z);
  }

  /** The variables of the column loop: `pen`, `line`, `lastLine` and `dummyLine`. */
  datatype Scan = Scan(pen: bool, line: Polyline, lastLine: LineSet, dummyLine: seq<real>)

  /**
   * The column loop's invariant before column `z` of row `w`, with the cells
   * behind the flushed runs (`done`) and behind `line` (`pending`): the pen is
   * down exactly while a run is pending, a pending run ends at the previous
   * column, and the flushed runs plus the pending one are the runs of the
   * cells drawn so far.
   */
  predicate Scanning(l: Landscape, w: nat, z: nat, st: Scan, done: seq<seq<Cell>>, pending: seq<Cell>)
    requires Valid(l) && w <= l.size && z <= l.size + 1
  {
    && st.dummyLine == Buffer(l, w, z)
    && (st.pen <==> |pending| > 0)
    && (|pending| > 0 ==> z > 0 && Last(pending) == (w, z - 1))
    && (|pending| == 0 ==> z == 0 || !Visible(l, w, z - 1))
    && AllInGrid(l, done) && RunInGrid(l, pending)
    && Close(done, pending) == Runs(DrawnBefore(l, w, z))
    && st.lastLine == ProjectRuns(l, done)
    && st.line == ProjectRun(l, pending)
  }

  /** The loop body for a hidden cell: the pen lifts, flushing a pending line. */
  method HideCell(l: Landscape, w: nat, z: nat, st: Scan, ghost done: seq<seq<Cell>>, ghost pending: seq<Cell>)
    returns (st': Scan, ghost done': seq<seq<Cell>>, ghost pending': seq<Cell>)
    requires Valid(l) && w <= l.size && z <= l.size && Scanning(l, w, z, st, done, pending)
    requires Height(l, w, z) <= st.dummyLine[z] || Gap(l, w, z)
    ensures Scanning(l, w, z + 1, st', done', pending')
  {
    HiddenStep(l, w, z, st.dummyLine);
    st', done', pending' := st, done, pending;
    if st.pen {
      st' := st'.(pen := false);
      if |st.line| > 0 {
        ProjectRunsSnoc(l, done, pending);
        st' := st'.(lastLine := st.lastLine + [st.line], line := []);
        done', pending' := done + [pending], [];
      }
    }
  }

  /** The state after drawing cell `(w, z)`. */
  lemma DrawStep(l: Landscape, w: nat, z: nat, st: Scan, done: seq<seq<Cell>>, pending: seq<Cell>)
    requires Valid(l) && w <= l.size && z <= l.size && Scanning(l, w, z, st, done, pending)
    requires !(Height(l, w, z) <= st.dummyLine[z] || Gap(l, w, z))
    ensures Scanning(l, w, z + 1,
      Scan(true, st.line + [Project(l, (w, z))], st.lastLine, st.dummyLine[z := Height(l, w, z)]),
      done, pending + [(w, z)])
  {
    VisibleStep(l, w, z, st.dummyLine);
    VisibleCell(l, w, z, done, pending);
    ProjectRunSnoc(l, pending, (w, z));
  }

  /** The loop body for a visible cell: the pen goes down, the point is pushed and the buffer raised. */
  method DrawCell(l: Landscape, w: nat, z: nat, st: Scan, ghost done: seq<seq<Cell>>, ghost pending: seq<Cell>)
    returns (st': Scan, ghost done': seq<seq<Cell>>, ghost pending': seq<Cell>)
    requires Valid(l) && w <= l.size && z <= l.size && Scanning(l, w, z, st, done, pending)
    requires !(Height(l, w, z) <= st.dummyLine[z] || Gap(l, w, z))
    ensures Scanning(l, w, z + 1, st', done', pending')
  {
    var xe := l.r * z as real;
    var ye := Height(l, w, z);
    var point := (-100.0 + xe, 100.0 - ye);
    ProjectCell(l, w, z);
    assert point == Project(l, (w, z));
    DrawStep(l, w, z, st, done, pending);
    st' := Scan(true, st.line + [point], st.lastLine, st.dummyLine[z := ye]);
    done', pending' := done, pending + [(w, z)];
  }

  /** One pass of the column loop: `ye` against the buffer and the gap test decide the branch. */
  method ScanCell(l: Landscape, w: nat, z: nat, st: Scan, ghost done: seq<seq<Cell>>, ghost pending: seq<Cell>)
    returns (st': Scan, ghost done': seq<seq<Cell>>, ghost pending': seq<Cell>)
    requires Valid(l) && w <= l.size && z <= l.size && Scanning(l, w, z, st, done, pending)
    ensures Scanning(l, w, z + 1, st', done', pending')
  {
    var ye := l.r * 0.66 * w as real + l.terrain[z][w] * 1.0;
    assert ye == Height(l, w, z);
    if ye <= st.dummyLine[z] || (l.terrain[z][w] == 0.0 && !WholeQuotient(w, l.surface)) {
      st', done', pending' := HideCell(l, w, z, st, done, pending);
    } else {
      st', done', pending' := DrawCell(l, w, z, st, done, pending);
    }
  }

  lemma ProjectCell(l: Landscape, w: nat, z: nat)
    requires Valid(l) && w <= l.size && z <= l.size
    ensures Project(l, (w, z)) == (-100.0 + l.r * z as real, 100.0 - Height(l, w, z))
  {
    var c: Cell := (w, z);
    assert Project(l, c).0 == -100.0 + l.r * z as real;
  }

  /** The column loop's invariant holds when a row starts. */
  lemma ScanStart(l: Landscape, w: nat, dummyLine: seq<real>, lastLine: LineSet, done: seq<seq<Cell>>)
    requires Valid(l) && w <= l.size && Extracting(l, w, dummyLine, lastLine, done)
    ensures Scanning(l, w, 0, Scan(false, [], lastLine, dummyLine), done, [])
  {
    BufferEnds(l, w);
    assert DrawnBefore(l, w, 0) == VisibleRows(l, w) + [];
    assert DrawnBefore(l, w, 0) == VisibleRows(l, w);
  }

  /** After the last column, the final flush closes the row. */
  lemma ScanEnd(l: Landscape, w: nat, st: Scan, done: seq<seq<Cell>>, pending: seq<Cell>)
    requires Valid(l) && w <= l.size && Scanning(l, w, l.size + 1, st, done, pending)
    ensures Extracting(l, w + 1, st.dummyLine, if |st.line| > 0 then st.lastLine + [st.line] else st.lastLine,
                       Close(done, pending))
  {
    BufferEnds(l, w);
    assert VisibleRows(l, w + 1) == DrawnBefore(l, w, l.size + 1);
    if |pending| > 0 {
      ProjectRunsSnoc(l, done, pending);
    }
  }

  /**
   * The row loop's invariant before row `w`: the buffer holds the ceilings
   * of row `w`, and the output is the projected runs of the cells drawn in
   * the first `w` rows (`doneCells`).
   */
  predicate Extracting(l: Landscape, w: nat, dummyLine: seq<real>, lastLine: LineSet, doneCells: seq<seq<Cell>>)
    requires Valid(l) && w <= l.size + 1
  {
    && dummyLine == Ceilings(l, w)
    && AllInGrid(l, doneCells) && doneCells == Runs(VisibleRows(l, w))
    && lastLine == ProjectRuns(l, doneCells)
  }

  /** Before the first row: a zero buffer and no output. */
  lemma ExtractStart(l: Landscape)
    requires Valid(l)
    ensures Extracting(l, 0, seq(l.size + 1, _ => 0.0), [], [])
  {
    assert seq(l.size + 1, _ => 0.0) == Ceilings(l, 0);
  }

  /** The column loop of one row, from column 0 past the last column. */
  method ScanColumns(l: Landscape, w: nat, st0: Scan, ghost done0: seq<seq<Cell>>)
    returns (st: Scan, ghost done: seq<seq<Cell>>, ghost pending: seq<Cell>)
    requires Valid(l) && w <= l.size && Scanning(l, w, 0, st0, done0, [])
    ensures Scanning(l, w, l.size + 1, st, done, pending)
  {
    st, done, pending := st0, done0, [];
    var z: nat := 0;
    while z <= l.size
      invariant 0 <= z <= l.size + 1
      invariant Scanning(l, w, z, st, done, pending)
    {
      st, done, pending := ScanCell(l, w, z, st, done, pending);
      z := z + 1;
    }
  }

  /**
   * One row of the scan: the column loop and the final flush. The buffer
   * moves from the ceilings of row `w` to those of row `w + 1`, and the
   * flushed runs grow from the runs of the first `w` rows to those of the
   * first `w + 1`.
   */
  method ScanRow(l: Landscape, w: nat, dummyLine: seq<real>, lastLine: LineSet, ghost doneCells: seq<seq<Cell>>)
    returns (dummyLine': seq<real>, lastLine': LineSet, ghost doneCells': seq<seq<Cell>>)
    requires Valid(l) && w <= l.size && Extracting(l, w, dummyLine, lastLine, doneCells)
    ensures Extracting(l, w + 1, dummyLine', lastLine', doneCells')
  {
    ScanStart(l, w, dummyLine, lastLine, doneCells);
    var st, done, pending := ScanColumns(l, w, Scan(false, [], lastLine, dummyLine), doneCells);
    ScanEnd(l, w, st, done, pending);
    dummyLine' := st.dummyLine;
    lastLine' := if |st.line| > 0 then st.lastLine + [st.line] else st.lastLine;
    doneCells' := Close(done, pending);
  }

  /**
   * `getLines` after the heightmap is built: the pen-up / pen-down scan over
   * rows `w` and columns `z`. Its result is exactly the maximal runs of
   * visible cells in drawing order, each projected to canvas points.
   */
  method ExtractLines(l: Landscape) returns (lastLine: LineSet)
    requires Valid(l)
    ensures AllInGrid(l, Runs(VisibleRows(l, l.size + 1)))
    ensures lastLine == ProjectRuns(l, Runs(VisibleRows(l, l.size + 1)))
  {
    lastLine := [];
    var dummyLine := seq(l.size + 1, _ => 0.0);
    ghost var doneCells: seq<seq<Cell>> := [];
    ExtractStart(l);
    var w := 0;
    while w <= l.size
      invariant 0 <= w <= l.size + 1
      invariant Extracting(l, w, dummyLine, lastLine, doneCells)
    {
      dummyLine, lastLine, doneCells := ScanRow(l, w, dummyLine, lastLine, doneCells);
      w := w + 1;
    }
  }
}
