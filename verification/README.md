# generative-art: a Dafny model of the sketch geometry and the poster layout

This project models the core of the generative-art repository. The sketches
are TypeScript programs that each build a set of polylines and rescale them
into a canvas. The poster renderer is a Python program that arranges the
exported drawings in a grid.

The model covers:

- the seeded Park–Miller generator `RandomNumberGenerator`, with the two
  `Utilities.ts` copies modelled once in `Rng`;
- the A-series paper table and the default parameters (`Config`);
- the line grid of sketch 1 (`LineGrid`);
- the hypotrochoid and epitrochoid curves of sketch 2 and the shape-type
  dispatch (`Roulette`);
- the midpoint-displacement heightmap of sketch 3 (`Terrain`);
- sketch 3's pen-up/pen-down horizon extraction (`Horizon`, end to end in
  `LandscapeSketch`);
- the placeholder line of the template sketch (`Template`);
- the min-max normalisation shared by all four `Shape.ts` (`Normalization`);
- the pure helpers of `render.py` (`Poster`), on top of a model of Python's
  `str.split`, string ordering and stable `sorted` (`PyStrings`).

Conventions:

- Coordinates are `real`. `sin`, `cos`, `log`, `sqrt` and `PI` are function
  values in a `MathLib` record. Only `sin(0) = 0` and `cos(0) = 1` are
  assumed about them (`JsMath.Lawful`).
- JavaScript's `%` is a truncating remainder (`JsMath.Rem`).
  `Math.round(x)` is `floor(x + 1/2)` (`JsMath.Round`).
- A thrown exception is an `Err` value of a `Result`.
- Every generator is threaded through explicitly as a value.
- The directory listings the renderer reads are input sequences.
- Python's `float()` parsing of a string is a parameter.

The generator is meant to be the "minimal standard" Lehmer generator of
Park and Miller (multiplier 16807, modulus `m = 2^31 - 1`), computed with
Schrage's decomposition `q = 127773`, `r = 2836`. In that design `hi` is an
integer quotient and every draw lies in `(0, 1)`. The code differs, and the
model follows the code:

- `nextDouble` computes `hi = seed / q` with real division, not integer
  division. The state therefore need not stay an integer: from seed 1 the
  first draw leaves `16807 - 2836/127773`. A draw from a state that `q`
  divides does give an integer state, since then `hi` is whole and `lo` is
  0: seed `q` leads to `16807 * q`, and that to `2099818995`.
- Under the invariant `0 < seed <= m`, a draw lies in `(0, 1]` rather than
  `(0, 1)`. The value 1 occurs exactly when the pre-wrap value is 0.

The generator is a value and every draw is a function of it, so equal seeds
give equal streams by construction.

The model also records two failures the code has:

- The template's `draw()` throws for every seed. A seed that the
  generator's constructor rejects throws there; any other seed reaches
  `_draw`, which reads the hole at slot 1 of the only polyline as a point.
- Sketch 3 throws for a terrain size that is not a power of two. The
  midpoint passes then index the grid with a fractional index.

## Model

| member | source | states |
|---|---|---|
| Rng.Create | sketches/sketch002/code/src/core/Utilities.ts:15-19 | the constructor rejects exactly the seeds `<= 0` and `Number.MAX_VALUE`, and keeps every other seed unchanged; the copy at `sketches/template/src/core/Utilities.ts:16-20` is identical |
| Rng.CreateBounded | sketches/sketch002/code/src/core/Utilities.ts:15-19 | the corrected guard: accepts exactly `0 < seed < m`, and an accepted generator satisfies the invariant `0 < seed <= m` |
| Rng.NextDouble | sketches/sketch002/code/src/core/Utilities.ts:20-28 | the draw is the new state divided by `m`; from a state in `(0, m]` the new state stays in `(0, m]` and the draw lies in `(0, 1]`; the draw is 1 exactly when the pre-wrap value is 0; the copy at `sketches/template/src/core/Utilities.ts:21-29` is identical |
| Rng.PreWrapBounds | sketches/sketch002/code/src/core/Utilities.ts:21-23 | from a state in `(0, m]` the value `a*lo - r*hi` lies strictly between `-m` and `m`, so lifting a value `<= 0` by `m` gives a positive state |
| Rng.Draws | sketches/sketch002/code/src/core/Utilities.ts:20-28 | `n` successive draws: exactly `n` values, each in `(0, 1]` under the invariant |
| Rng.DrawsResume | sketches/sketch002/code/src/core/Utilities.ts:20-28 | drawing `n + k` values is drawing `n`, then `k` more from the state reached; the `i`-th draw depends only on `i` |
| Rng.DrawsNth | sketches/sketch002/code/src/core/Utilities.ts:20-28 | the `i`-th element of a draw sequence is the `i`-th draw of the generator |
| Rng.Advance | sketches/sketch002/code/src/core/Utilities.ts:20-28 | any number of draws keeps the invariant `0 < seed <= m` |
| Rng.AdvanceAdd | sketches/sketch002/code/src/core/Utilities.ts:20-28 | `a` draws followed by `b` draws leave the state that `a + b` draws leave |
| Rng.LargeSeedEscapesBound | sketches/sketch002/code/src/core/Utilities.ts:16 | the seed `q * 10^6` passes the constructor guard, its first draw is negative and the next state leaves `(0, m]` |
| Rng.DrawNonZero | sketches/sketch002/code/src/core/Utilities.ts:33-34 | the `while (u === 0)` loop returns a non-zero draw; inside the invariant it is the first draw |
| Rng.DrawNonZeroAtMostTwice | sketches/sketch002/code/src/core/Utilities.ts:33-34 | the loop runs at most twice, because a draw of 0 leaves state 0, whose next draw is 1 |
| Rng.NormalStepTwoDraws | sketches/sketch002/code/src/core/Utilities.ts:30-38 | inside the invariant `randomNormal` consumes exactly two draws; the copy at `sketches/template/src/core/Utilities.ts:31-39` is identical |
| Rng.RandomNormal | sketches/sketch002/code/src/core/Utilities.ts:30-38 | the state after `randomNormal` is the state after the two non-zero loops |
| Rng.RandomNormalValue | sketches/sketch002/code/src/core/Utilities.ts:30-38 | inside the invariant the value is the Box–Muller transform of the next two draws |
| Rng.NormalsConsumeTwoDraws | sketches/sketch002/code/src/core/Utilities.ts:30-38 | `k` normal samples consume exactly `2k` uniform draws |
| Rng.AdvanceNormalsAdd | sketches/sketch002/code/src/core/Utilities.ts:30-38 | from any state inside the seed invariant, `a` normal samples followed by `b` more leave the state that `a + b` leave |
| Rng.NormalAtShift | sketches/sketch002/code/src/core/Utilities.ts:30-38 | from any state inside the seed invariant, sample `b` after skipping `a` samples is sample `a + b` |
| Rng.NextInt | sketches/sketch002/code/src/core/Utilities.ts:39-42 | `nextInt` consumes one draw; for integral `min <= max` it returns an integer in `[min, max]`; the copy at `sketches/template/src/core/Utilities.ts:40-43` is identical |
| Rng.NextIntBounds | sketches/sketch002/code/src/core/Utilities.ts:40-41 | for integral bounds and a draw in `(0, 1]`, `min + round(range * d)` is integral and within `[min, max]` |
| JsMath.Trunc | sketches/sketch002/code/src/core/Utilities.ts:22 | truncation toward zero: the result is within 1 of `x`, on the side of zero |
| JsMath.Rem | sketches/sketch002/code/src/core/Utilities.ts:22 | JavaScript `%`: the remainder has the sign of `x`, has magnitude below `d`, and `x - rem` is `d` times the truncated quotient |
| JsMath.Round | sketches/sketch002/code/src/core/Utilities.ts:40-41 | `Math.round` returns the integer within one half of `x`, rounding halves up |
| JsMath.ToInt32 | sketches/sketch003/code/src/core/Shape.ts:84 | `x \| 0` lies in the 32-bit range and is the truncation of `x` when that is in range |
| JsMath.RoundIntegral | sketches/sketch002/code/src/core/Utilities.ts:40 | rounding an integral value returns it |
| JsMath.RoundWithin | sketches/sketch002/code/src/core/Utilities.ts:41 | rounding a value in `[0, n]` gives an integer in `[0, n]` |
| Config.PaperSize | sketches/sketch002/code/src/core/Utilities.ts:112-133 | the table has exactly the keys 2 to 5, and every entry has `0 < width < height`; the copy at `sketches/template/src/core/Utilities.ts:112-133` is identical |
| Config.PaperHalving | sketches/template/src/core/Utilities.ts:112-133 | for keys 2 to 4 the height of A(k+1) is the width of A(k), and its width is half the height of A(k), rounded down |
| Config.AdjustedSize | sketches/template/src/core/View.ts:80-85 | the canvas size formula is defined exactly for the keys in the table, and it is positive when the margins are smaller than the paper |
| Config.DefaultCanvasSize | sketches/template/src/core/Utilities.ts:138-171 | the defaults are A4 with 2 columns and 3 rows, and width, height and padding lie within their declared ranges; the copy at `sketches/sketch002/code/src/core/Utilities.ts:138-171` is identical |
| Config.DefaultCanvasMatchesAdjust | sketches/template/src/core/Utilities.ts:141-160 | the default width and height are what the canvas size formula gives for the default paper, margins and grid |
| Config.DefaultShapeParameters | sketches/sketch002/code/src/core/Utilities.ts:232-274 | every default lies within its declared `[min, max]`, the shape type is 0, and radius two and the point count are positive |
| Config.DefaultLineParameters | sketches/template/src/core/Utilities.ts:196-209 | the line width default lies in its range, and the default seed 1234 passes both guards and lies in `(0, m]` |
| Normalization.RescaleCoord | sketches/sketch001/code/src/core/Shape.ts:137-144 | a degenerate axis maps to 0; otherwise the image divides `[a, b]` in the same ratio as `c` divides `[min, max]`, that is `(r - a) * (max - min) = (c - min) * (b - a)`, so `min` maps to `a`, `max` to `b`, and `[min, max]` into `[a, b]`; the copies at `sketches/sketch002/code/src/core/Shape.ts:98-105`, `sketches/sketch003/code/src/core/Shape.ts:128-135`, `sketches/template/src/core/Shape.ts:46-53` are identical |
| Normalization.MinMax | sketches/sketch001/code/src/core/Shape.ts:147-158 | both bounds occur in the values, and every value lies between them |
| Normalization.Bounds | sketches/sketch001/code/src/core/Shape.ts:147-158 | the bounds of one axis over all points: they bound every point's coordinate and both are attained; the copies at `sketches/sketch002/code/src/core/Shape.ts:108-119`, `sketches/sketch003/code/src/core/Shape.ts:138-149`, `sketches/template/src/core/Shape.ts:56-67` are identical |
| Normalization.RescaleAllSpec | sketches/sketch001/code/src/core/Shape.ts:175-192 | for any bounds, each axis of every point is rescaled on its own (`Rescaled`): a degenerate axis goes to 0; otherwise the image divides the padded range in the ratio the coordinate divides the bounds, the lower and upper bound go to `padding` and `width - padding` (or `height - padding`), and a coordinate within the bounds lands inside the padded canvas |
| Normalization.Normalize | sketches/sketch001/code/src/core/Shape.ts:175-192 | the rescale loop keeps the polyline count and every polyline's length, and rescales every point against the bounds `_minmax` gives (`Rescaled`): a degenerate axis maps to 0; each coordinate keeps its ratio within the bounds; the extremes map to `padding` and `width - padding` (or `height - padding`); every point lands inside the padded canvas; the copies at `sketches/sketch002/code/src/core/Shape.ts:138-155`, `sketches/sketch003/code/src/core/Shape.ts:169-186`, `sketches/template/src/core/Shape.ts:84-101` are identical |
| Geometry.CoordsMembers | sketches/sketch001/code/src/core/Shape.ts:147-158 | the values `_minmax` spreads are exactly the coordinates of the points on one axis |
| Geometry.PointCountPositive | sketches/sketch001/code/src/core/Shape.ts:147-158 | there is a coordinate to take bounds of exactly when some polyline is non-empty |
| LineGrid.Lines | sketches/sketch001/code/src/core/Shape.ts:32-79 | one orientation yields `nLines + 1` polylines of `2*nPoints + 2` points; point `p` of line `li` is built from sample `li*(nPoints+1) + p/2`; exactly `(nLines+1)*(nPoints+1)` samples are consumed |
| LineGrid.LinesPoints | sketches/sketch001/code/src/core/Shape.ts:37-73 | horizontal lines: even points lie on the baseline `(p*wInc, li*hInc)` and odd points are moved across the line by `scaleNoise * sin(p*increment + z)`; vertical lines: even points on `(li*wInc, p*hInc)` and odd points moved along `x` |
| LineGrid.NoiselessPointsOnBaseline | sketches/sketch001/code/src/core/Shape.ts:42-48 | with `scaleNoise = 0` every point lies on its baseline |
| LineGrid.EvenIgnoresSample | sketches/sketch001/code/src/core/Shape.ts:37-41 | an even point does not depend on the random sample |
| LineGrid.LinesDrawCount | sketches/sketch001/code/src/core/Shape.ts:34-50 | one orientation consumes `(nLines+1)*(nPoints+1)` normal samples, which is twice as many uniform draws |
| LineGrid.SketchSamples | sketches/sketch001/code/src/core/Shape.ts:46 | sample `k` is the `k`-th `randomNormal` value, which is the Box–Muller value of draws `2k` and `2k+1` |
| LineGrid.SketchSkip | sketches/sketch001/code/src/core/Shape.ts:46 | skipping `k` samples is taking `k` normal values |
| LineGrid.SkipAdd | sketches/sketch001/code/src/core/Shape.ts:34-50 | samples are taken in a single sequence: skipping `a` then `b` is skipping `a + b` |
| LineGrid.SampleNoShift | sketches/sketch001/code/src/core/Shape.ts:34-50 | sample `b` after `a` skipped samples is sample `a + b` |
| LineGrid.PointsFromLength | sketches/sketch001/code/src/core/Shape.ts:36-49 | the point loop from `p` yields `count - p` points and takes one sample per odd point |
| LineGrid.PointsFromDrawOrder | sketches/sketch001/code/src/core/Shape.ts:36-49 | the point loop takes samples in increasing point order |
| LineGrid.LinesFromLength | sketches/sketch001/code/src/core/Shape.ts:34-50 | the line loop yields one polyline per remaining line and takes `nPoints + 1` samples per line |
| LineGrid.LinesFromDrawOrder | sketches/sketch001/code/src/core/Shape.ts:34-50 | the line loop takes samples in increasing (line, point) order, and every line has `2*nPoints + 2` points |
| LineGrid.GetLines | sketches/sketch001/code/src/core/Shape.ts:81-116 | `vertical` and `horizontal` build one orientation; `both` builds vertical then horizontal from the generator the first left, giving `2*(nLines+1)` polylines; any other orientation is an error |
| LineGrid.DrawGrid | sketches/sketch001/code/src/core/Shape.ts:162-192 | the call fails exactly when the constructor's guard rejects the seed (`<= 0` or `Number.MAX_VALUE`, checked first) or the orientation is unknown; otherwise the grid lines are normalised into the canvas and keep their shape |
| Roulette.RadiusDifference | sketches/sketch002/code/src/core/Shape.ts:47 | `abs(radiusOne - radiusTwo)`: non-negative and one of the two differences |
| Roulette.GetPointAtZero | sketches/sketch002/code/src/core/Shape.ts:51-76 | a hypotrochoid starts at `(radiusDifference + distance, 0)`; an epitrochoid starts at `(radiusSum - distance, 0)` |
| Roulette.GetPoints | sketches/sketch002/code/src/core/Shape.ts:25-31 | an invalid array length throws; otherwise the curve has `mult*n + 1` points, the `i`-th at `t = i/n` |
| Roulette.GetLines | sketches/sketch002/code/src/core/Shape.ts:33-38 | exactly one polyline, the sampled curve |
| Roulette.FirstSampleIsStart | sketches/sketch002/code/src/core/Shape.ts:25-31 | the first sample of the polyline is the curve's closed-form start point |
| Roulette.CurveFor | sketches/sketch002/code/src/core/Shape.ts:182-204 | shape type 0 is a hypotrochoid and 1 an epitrochoid, built from the parameter values; any other type builds nothing |
| Roulette.Draw | sketches/sketch002/code/src/core/Shape.ts:179-205 | any shape type other than 0 or 1 silently draws nothing; for 0 or 1 the call fails exactly when `mult*n + 1` is not a valid array length, with that length; otherwise the result is the curve's `mult*n + 1` samples `getPoint(i/n)`, as one polyline, normalised into the canvas |
| Terrain.BinaryDigitsBounds | sketches/sketch003/code/src/core/Shape.ts:39 | `n.toString(2).length` is the `d` with `2^(d-1) <= n < 2^d` |
| Terrain.PowerOfTwoDigits | sketches/sketch003/code/src/core/Shape.ts:39-42 | for a power of two, `2^nbits` is the size itself, so `x` halves to 1 |
| Terrain.FractionalLastPass | sketches/sketch003/code/src/core/Shape.ts:39-62 | for any other size there is a pass whose step `x` is fractional |
| Terrain.Pow2IsPowerOfTwo | sketches/sketch003/code/src/core/Shape.ts:39 | every `2^k` is a power of two |
| Terrain.Pow2Add | sketches/sketch003/code/src/core/Shape.ts:60-61 | `2^a * 2^b = 2^(a+b)` |
| Terrain.Random | sketches/sketch003/code/src/core/Shape.ts:40 | `random()` is 0 when the randomness is 0 |
| Terrain.Positions | sketches/sketch003/code/src/core/Shape.ts:44-56 | on a side of length `h * 2x`, the loop index `2k` lies on the lattice of step `2x` at position `k`, and `2k + 1` is the odd multiple at position `k` |
| Terrain.OddIsMid | sketches/sketch003/code/src/core/Shape.ts:45-47 | every odd multiple of `x` on a side is the `(2k + 1) * x` of some step `k < h` of an inner loop |
| Terrain.OnIsEven | sketches/sketch003/code/src/core/Shape.ts:44 | every multiple of `2x` on a side is the `v` of some step of the loop over `v` |
| Terrain.EndsOn | sketches/sketch003/code/src/core/Shape.ts:44 | both ends `0` and `N` of a side are values of `v`, so no pass writes a corner |
| Terrain.Classify | sketches/sketch003/code/src/core/Shape.ts:44-59 | a coordinate on a side is an odd multiple `(2k + 1)x`, a multiple `2kx`, or neither, each at its unique lattice position |
| Terrain.LatticeStop | sketches/sketch003/code/src/core/Shape.ts:44 | the loop over `v` in steps of `2x` runs exactly for `v = iv * 2x` with `iv <= h`, that is `h + 1` times |
| Terrain.OddMultiple | sketches/sketch003/code/src/core/Shape.ts:45-47 | at `n = 2k + 1` the indices `n * x`, `(n - 1) * x` and `(n + 1) * x` are the odd multiple of step `k` and the lattice points on either side |
| Terrain.EdgeStep | sketches/sketch003/code/src/core/Shape.ts:46-47 | one step writes `terrain[n*x][v]` as the mean of the cells above and below plus the next `random()`, then `terrain[v][n*x]` as the mean of the cells left and right plus the one after; every other cell is kept |
| Terrain.EdgeLine | sketches/sketch003/code/src/core/Shape.ts:45-48 | the inner loop at `v` writes the `h` vertical and `h` horizontal midpoints of that line and makes `2h` calls |
| Terrain.EdgePass | sketches/sketch003/code/src/core/Shape.ts:44-49 | the first loop of a pass writes every edge midpoint, vertical and horizontal, as the mean of its two lattice neighbours in the grid before the loop plus its own call of `random()`, numbered in loop order; it keeps every other cell and makes exactly `2(h + 1)h` calls |
| Terrain.CentreStep | sketches/sketch003/code/src/core/Shape.ts:52-57 | one step writes `terrain[n*x][m*x]` as a quarter of its four neighbours plus the next `random()`, and keeps every other cell |
| Terrain.CentreLine | sketches/sketch003/code/src/core/Shape.ts:51-58 | the inner loop at row `n*x` writes the `h` centres of that row and makes `h` calls |
| Terrain.CentrePass | sketches/sketch003/code/src/core/Shape.ts:50-59 | the second loop writes every centre as a quarter of its four neighbours in the grid before the loop plus its own call, numbered in loop order; it keeps every other cell and makes exactly `h^2` calls |
| Terrain.CombinePass | sketches/sketch003/code/src/core/Shape.ts:44-59 | the two loops together make one pass: the centres read the edge midpoints the first loop has just written, which the second loop never overwrites |
| Terrain.PassScale | sketches/sketch003/code/src/core/Shape.ts:39-43 | during pass `s` of a power-of-two size `N`, there are `h = 2^(s-1)` odd multiples per side and `x = N / 2^s`, so `N = h * 2x` |
| Terrain.NextPass | sketches/sketch003/code/src/core/Shape.ts:60-62 | the updates `t = 2t + 1`, `x /= 2` and `randomness /= 2` carry pass `s` to pass `s + 1`: `t + 1 = 2^(s+1)`, the next cell size, randomness halved, and the calls of pass `s` counted |
| Terrain.RunPass | sketches/sketch003/code/src/core/Shape.ts:44-59 | one iteration of the loop over `s` is pass `s` (`NthPass`), with randomness `randomness / 2^(s-1)`, and the call count moves on to the calls before pass `s + 1` |
| Terrain.ExtendPasses | sketches/sketch003/code/src/core/Shape.ts:43-63 | appending the grid of the next pass keeps every earlier pass and its step |
| Terrain.Clamp | sketches/sketch003/code/src/core/Shape.ts:64-68 | every cell is afterwards `>= 0`, non-negative cells are unchanged and negative cells become 0 |
| Terrain.CreateTerrain | sketches/sketch003/code/src/core/Shape.ts:33-70 | a size that is not 0 or a power of two is an error; otherwise the result is `Displaced`: the zero grid goes through `N.toString(2).length - 1` passes, pass `s` at cell size `N / 2^s` with randomness `randomness / 2^(s-1)` and the calls numbered across all passes, and the last grid is clamped; it is an `(N+1)x(N+1)` grid with zero corners and non-negative cells, all 0 when there is no randomness |
| Terrain.DisplacedShape | sketches/sketch003/code/src/core/Shape.ts:36-68 | a displaced heightmap has zero corners and non-negative cells, and is flat when there is no randomness |
| Terrain.CornersStayZero | sketches/sketch003/code/src/core/Shape.ts:36-63 | no pass writes a corner, so every grid after a pass has zero corners |
| Terrain.StaysFlat | sketches/sketch003/code/src/core/Shape.ts:36-63 | with no randomness every grid after a pass is flat |
| Terrain.PassFlat | sketches/sketch003/code/src/core/Shape.ts:44-59 | a pass with randomness 0 takes a flat grid to a flat grid |
| Terrain.PassUnique | sketches/sketch003/code/src/core/Shape.ts:44-59 | the description of a pass leaves no freedom: two grids that both follow it from the same grid are equal |
| Terrain.SamePass | sketches/sketch003/code/src/core/Shape.ts:43-63 | two runs of the passes over the same calls agree on every pass |
| Terrain.DisplacedUnique | sketches/sketch003/code/src/core/Shape.ts:33-70 | `Displaced` fixes the passes and the heightmap, so `_createTerrain` has one result for given calls of `randomInt()` |
| Horizon.WholeQuotientMultiples | sketches/sketch003/code/src/core/Shape.ts:84 | for a whole `surface = k`, the test `w/k === (w/k)\|0` holds exactly when `k` divides `w` |
| Horizon.CeilingMonotone | sketches/sketch003/code/src/core/Shape.ts:83-98 | `dummyLine[z]` never decreases from one row to the next |
| Horizon.CeilingIsMax | sketches/sketch003/code/src/core/Shape.ts:83-98 | `dummyLine[z]` is 0 or the height of an earlier drawn cell of the column, and no earlier drawn cell is higher |
| Horizon.VisibleIff | sketches/sketch003/code/src/core/Shape.ts:83-98 | a cell is drawn exactly when it is not a gap, its height is positive, and it is higher than every earlier drawn cell of its column |
| Horizon.CeilingStep | sketches/sketch003/code/src/core/Shape.ts:96-97 | the buffer of a column becomes the cell's height exactly when the cell is drawn |
| Horizon.VisibleRowMembers | sketches/sketch003/code/src/core/Shape.ts:81-98 | the drawn cells of a row are exactly its visible cells, left to right |
| Horizon.VisibleRowsMembers | sketches/sketch003/code/src/core/Shape.ts:79-104 | the drawn cells of the first `w` rows are exactly their visible cells |
| Horizon.Runs | sketches/sketch003/code/src/core/Shape.ts:85-103 | splitting the drawn cells into runs gives no empty run, and the last run ends at the last drawn cell |
| Horizon.RunsFlatten | sketches/sketch003/code/src/core/Shape.ts:85-103 | the runs together are exactly the drawn cells, in order |
| Horizon.RunsAdjacent | sketches/sketch003/code/src/core/Shape.ts:79-104 | within a run the cells are consecutive columns of one row, so no polyline spans two rows |
| Horizon.RunsMaximal | sketches/sketch003/code/src/core/Shape.ts:85-103 | consecutive runs are never adjacent: the pen lifts exactly at a hidden cell or a row end |
| Horizon.ProjectCell | sketches/sketch003/code/src/core/Shape.ts:82-96 | a drawn cell becomes the point `(-100 + r*z, 100 - ye)` |
| Horizon.HideCell | sketches/sketch003/code/src/core/Shape.ts:84-91 | a hidden cell lifts the pen and flushes the pending line, and the scan invariant holds for the next column |
| Horizon.DrawCell | sketches/sketch003/code/src/core/Shape.ts:92-98 | a drawn cell puts the pen down, pushes its point and raises the buffer, and the scan invariant holds for the next column |
| Horizon.ScanCell | sketches/sketch003/code/src/core/Shape.ts:81-98 | one column step preserves the scan invariant |
| Horizon.ScanRow | sketches/sketch003/code/src/core/Shape.ts:79-104 | one row moves the buffer from the ceilings of row `w` to those of row `w+1`; the output becomes the projected runs of the first `w+1` rows |
| Horizon.ExtractLines | sketches/sketch003/code/src/core/Shape.ts:74-106 | the output is exactly the maximal runs of visible cells in drawing order, each projected to canvas points |
| LandscapeSketch.LandscapeOf | sketches/sketch003/code/src/core/Shape.ts:73 | the step `r` satisfies `r * terrainSize = angle` |
| LandscapeSketch.GetLines | sketches/sketch003/code/src/core/Shape.ts:72-106 | a size that is not a power of two throws; otherwise the heightmap is the `Displaced` result of midpoint displacement (non-negative, flat without randomness) and the result is the projected horizon runs over it |
| LandscapeSketch.FlatVisible | sketches/sketch003/code/src/core/Shape.ts:83-98 | on a flat heightmap with `r > 0`, a cell is drawn exactly when its row is a positive whole multiple of `surface` |
| LandscapeSketch.FlatAboveCeiling | sketches/sketch003/code/src/core/Shape.ts:83-84 | on a flat heightmap every row after the first rises above its column's buffer |
| LandscapeSketch.PolylineSteps | sketches/sketch003/code/src/core/Shape.ts:79-104 | every output polyline is non-empty and is one row's consecutive columns, so `x` advances by exactly `r` |
| LandscapeSketch.PolylinesIncreasing | sketches/sketch003/code/src/core/Shape.ts:73-96 | with `r > 0`, `x` strictly increases along every polyline |
| LandscapeSketch.Draw | sketches/sketch003/code/src/core/Shape.ts:153-219 | a size that is not a power of two throws; otherwise the heightmap is the `Displaced` result of midpoint displacement and the result is the projected horizon runs over it, normalised into the canvas and keeping their shape |
| Template.GetLines | sketches/template/src/core/Shape.ts:18-25 | exactly one polyline of length 3: `(0, h/2)`, a hole, `(w, h/2)` |
| Template.ScanLine | sketches/template/src/core/Shape.ts:84-87 | the walk over one polyline finds a hole exactly when there is one, and it finds the first |
| Template.FindHole | sketches/template/src/core/Shape.ts:84-101 | the walk over every slot finds a hole exactly when the set is not dense, and it finds the first in row-major order |
| Template.FirstHoleUnique | sketches/template/src/core/Shape.ts:84-101 | there is only one first hole |
| Template.Draw | sketches/template/src/core/Shape.ts:71-121 | `_draw` throws exactly when some slot is a hole, naming the first; a dense set is normalised and keeps its shape |
| Template.TemplateHole | sketches/template/src/core/Shape.ts:19-24 | the template's own polyline is not dense, and its first hole is slot 1 |
| Template.DrawTemplate | sketches/template/src/core/Shape.ts:124-130 | `draw()` always fails: with the seed error when the `Line` constructor's generator (line 15) rejects the seed, and otherwise at slot 1 of polyline 0, whatever the canvas |
| PyStrings.Split | render/render/render.py:213 | `str.split` with one separator: at least one piece and no piece contains the separator |
| PyStrings.SplitJoin | render/render/render.py:213 | joining the pieces with the separator gives back the string |
| PyStrings.JoinSplit | render/render/render.py:213 | splitting a join of separator-free pieces gives back the pieces |
| PyStrings.SplitAppend | render/render/render.py:213 | splitting around a separator concatenates the pieces of both sides |
| PyStrings.SplitWhole | render/render/render.py:213 | a string without the separator is a single piece |
| PyStrings.AfterLastShape | render/render/render.py:213 | `s.split(sep)[-1]` is a separator-free suffix of `s`, preceded by a separator unless it is all of `s` |
| PyStrings.AfterLastIs | render/render/render.py:62 | the piece after a final separator is `split(sep)[-1]` |
| PyStrings.BeforeFirstIs | render/render/render.py:60 | the piece before a first separator is `split(sep)[0]` |
| PyStrings.LexIrreflexive | render/render/render.py:211-214 | string order is irreflexive |
| PyStrings.LexTotal | render/render/render.py:211-214 | any two strings are ordered or equal |
| PyStrings.LexTransitive | render/render/render.py:211-214 | string order is transitive |
| PyStrings.Insert | render/render/render.py:211-214 | inserting adds exactly the element to the multiset |
| PyStrings.InsertSorted | render/render/render.py:211-214 | inserting into a key-sorted list keeps it sorted |
| PyStrings.InsertStable | render/render/render.py:211-214 | inserting only adds the element, in front of its own key group |
| PyStrings.SortBy | render/render/render.py:211-214 | `sorted` is a permutation of its input |
| PyStrings.SortBySorted | render/render/render.py:211-214 | `sorted` orders by key |
| PyStrings.SortByStable | render/render/render.py:211-214 | `sorted` is stable: elements with equal keys keep their order |
| Poster.NewRenderer | render/render/render.py:84-91 | a dict is kept, a namespace becomes its attribute dict, anything else raises `ValueError` |
| Poster.ToFloat | render/render/render.py:193-196 | `float()` of an int or float is its value; a string parses or raises `ValueError`; anything else raises `TypeError` |
| Poster.FloatArg | render/render/render.py:193-196 | a missing key raises `KeyError`; otherwise its value goes through `float()` |
| Poster.MainVars | render/render/render.py:190-197 | succeeds exactly when both margins convert, failing on width first; adds exactly the four margin keys, keeps every other argument, and the margins split with `left = right`, `left + right = widthMargin`, `top + bottom = heightMargin`, `bottom = 2*top` |
| Poster.Basename | render/render/render.py:207-208 | `os.path.basename` contains no `/` |
| Poster.PathJoin | render/render/render.py:211-214 | `os.path.join` returns an absolute second part as is; otherwise the result starts with the first part and ends with the second, with exactly one `/` inserted between them when the first part is non-empty and does not already end in `/`, and nothing inserted otherwise |
| Poster.OrderedPaths | render/render/render.py:210-214 | the joined listing keeps its length, sorted by the text after the last `_` |
| Poster.FillRow | render/render/render.py:218-221 | a row takes the next `columns` files, or raises `IndexError` when they run out |
| Poster.Chunk | render/render/render.py:215-223 | `rows` lists in row-major order, each with `columns` entries, or `IndexError` exactly when there are fewer than `rows*columns` files |
| Poster.RowMajorEntry | render/render/render.py:215-221 | entry `[i][j]` is file `i*columns + j` |
| Poster.RowMajorConcat | render/render/render.py:215-223 | the rows concatenated are the first `rows*columns` sorted files |
| Poster.OrganizeFiles | render/render/render.py:206-223 | missing or mistyped arguments raise `KeyError` or `TypeError`; otherwise a row-major grid of the sorted files, or `IndexError` exactly when fewer than `rows*columns` files exist |
| Poster.Reciprocal | render/render/render.py:202 | `1 / columns` is the reciprocal of a non-zero number, `ZeroDivisionError` for zero, `TypeError` otherwise |
| Poster.FiguresVars | render/render/render.py:199-204 | a missing or unusable `columns` raises the error `1 / columns` raises; with integer `rows`, a string `input` and a non-zero integer `columns` the call fails exactly when the grid needs more files than the listing has; on success it adds exactly `textWidthScalar` and `files`, keeps the other arguments, sets the scalar to `1/columns` and the files to the organised grid |
| Poster.SvgSuffix | render/render/render.py:59-63 | the filter selects a name exactly when it is `svg` or ends in `.svg` |
| Poster.SvgFiles | render/render/render.py:59-63 | the selected files are exactly the listed names that pass the filter |
| Poster.PdfNameStem | render/render/render.py:60-69 | the output name is the text before the first `.` plus `.pdf`, so `a.b.svg` becomes `a.pdf` |
| Poster.PdfNotSvg | render/render/render.py:60-69 | an output name never passes the `.svg` filter |
| Poster.ConvertJobs | render/render/render.py:59-72 | one conversion per selected file, from its path to the path of its output name |
| Poster.Deletions | render/render/render.py:246-252 | deletion uses the same filter: one path per selected file |
| Poster.CleanupSparesPdfs | render/render/render.py:234-252 | the converted outputs added to the directory are not deleted: the filter selects the same names before and after conversion |
| Poster.PdfNames | render/render/render.py:60-69 | one output name per selected file, in order |

## Left out

- Floating point: coordinates, seeds and heights are `real`. Float64 rounding and the `Float32Array` storage of the heightmap and the buffer are not modelled.
- `Math.sin`, `cos`, `log`, `sqrt` and `PI` are parameters. Only `sin(0) = 0` and `cos(0) = 1` are assumed, and no numeric accuracy is claimed.
- `rng.randomInt()` in `_createTerrain` calls a method missing from both shown generator classes. The `Utilities.ts` of sketch 3 is not part of this model. The draw is a parameter indexed by call number.
- The `Line` constructor of sketch 3: the `Number()` conversions, `lineWidth` and the generator it builds from `randomSeed` are not modelled. `terrainSize` is a natural number.
- LandscapeSketch.GetLines: requires `terrainSize >= 1`, because `r = angle / terrainSize` divides by zero for size 0.
- LandscapeSketch.Draw: requires `terrainSize >= 1` for the same reason.
- LineGrid.GetLines: requires the width and height divisors to be non-zero (`LineGrid.DivisorsNonZero`), where JavaScript would produce infinities or `NaN`.
- LineGrid.DrawGrid: requires the same non-zero divisors.
- LineGrid.GetLines: takes `nLines` and `nPoints` as natural numbers. The code passes `nLines + 1` and `2 * nPoints + 2` to `new Array`. A fractional count would throw a `RangeError` there, and a count of -1 would give no polylines or empty ones. Neither path is modelled.
- LineGrid.DrawGrid: takes the same natural-number counts, so the `RangeError` and negative-count paths of `new Array` are not modelled here either.
- LineGrid.DrawGrid: sketch 1 builds its generator from its own `Utilities.ts` (imported at `sketches/sketch001/code/src/core/Shape.ts:4`, constructed at line 27). That file is not part of this model. It is assumed to hold the same `RandomNumberGenerator` class as sketch 2 and the template, so the seed guard is `Rng.Create` and the samples are `Rng`'s `randomNormal` stream.
- Roulette.GetPoints: requires a non-zero radius two and a non-zero `n`, where `getPoint` and `i/n` would divide by zero.
- Roulette.GetLines: requires a non-zero radius two and point count, for the same reason.
- Roulette.Draw: requires a non-zero radius two and point count, for the same reason.
- Config.AdjustedSize: requires non-zero column and row counts, where the formula would divide by zero.
- Poster.FillRow: requires the start index to be within the listing. `Poster.Chunk` only calls it that way.
- Drawing: the Two.js calls in every `_draw` (`makePath`, line width times `PX`, `scene.update`) and the `reduce` flattening are side effects.
- `Math.max`/`Math.min` over an empty spread give infinities. Bounds are only taken of a non-empty point set, and `Normalize` returns an empty set unchanged.
- `NaN` bounds in the template are not modelled: its `_draw` throws at the hole before it uses them.
- `sketches/template/src/core/View.ts` (GUI wiring, DOM, SVG export, resizing) is left out. Only its size formula (80-85) is modelled, as `Config.AdjustedSize`.
- `sketches/sketch003/code/src/index.ts` and `render/main.py` are start-up glue and are not modelled.
- render.py I/O: the Inkscape subprocess, the tool checks, jinja rendering, `copytree`, `os.remove`, font copying and `os.listdir` are left out. The listings are input sequences.
- render.py `float()` of a string is a parameter, because Python's number syntax is not modelled.
- The constructor's `_check_vars` does nothing and is not modelled.
- `console.log` and `print` calls are left out.

## Findings

| source | as written | input that shows it | evidently intended | confidence | as-written member | corrected member |
|---|---|---|---|---|---|---|
| sketches/sketch002/code/src/core/Utilities.ts:16 | the guard rejects only `seed <= 0` and `seed === Number.MAX_VALUE`, so any seed above `m` is accepted | seed `127773 * 10^6`: its first `nextDouble` is negative and the state leaves `(0, m]` | reject every seed outside `(0, m)`, so every draw lies in `(0, 1]` | not executed | Rng.LargeSeedEscapesBound | Rng.CreateBounded |
