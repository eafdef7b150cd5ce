/**
 * The heightmap of the third sketch (`Line._createTerrain`): midpoint
 * displacement on an `(N + 1) x (N + 1)` grid. Each of the
 * `N.toString(2).length - 1` passes fills the midpoints of the current
 * cells from their neighbours plus a random term, then halves the cell size
 * and the randomness; a final pass clamps negative heights to 0.
 *
 * The generator's `randomInt()` is not part of this model: its results are
 * the parameter `randomInt`, indexed by call number.
 */
module Terrain {
  import opened Wrappers

  function Pow2(k: nat): (r: nat)
    ensures r >= 1
  {
    if k == 0 then 1 else 2 * Pow2(k - 1)
  }

  lemma {:induction false} Pow2Add(a: nat, b: nat)
    ensures Pow2(a) * Pow2(b) == Pow2(a + b)
    decreases a
  {
    if a > 0 {
      Pow2Add(a - 1, b);
      assert Pow2(a) * Pow2(b) == 2 * (Pow2(a - 1) * Pow2(b));
    }
  }

  predicate IsPowerOfTwo(n: nat)
    decreases n
  {
    n == 1 || (n >= 2 && n % 2 == 0 && IsPowerOfTwo(n / 2))
  }

  /** The length of `n.toString(2)`. */
  function BinaryDigits(n: nat): (r: nat)
    ensures r >= 1
    decreases n
  {
    if n < 2 then 1 else 1 + BinaryDigits(n / 2)
  }

  /** A positive `n` has `d` binary digits exactly when `2^(d-1) <= n < 2^d`. */
  lemma {:induction false} BinaryDigitsBounds(n: nat)
    requires n >= 1
    ensures Pow2(BinaryDigits(n) - 1) <= n < Pow2(BinaryDigits(n))
    decreases n
  {
    if n >= 2 {
      BinaryDigitsBounds(n / 2);
    }
  }

  lemma {:induction false} Pow2IsPowerOfTwo(k: nat)
    ensures IsPowerOfTwo(Pow2(k))
  {
    if k > 0 {
      Pow2IsPowerOfTwo(k - 1);
      assert Pow2(k) / 2 == Pow2(k - 1);
    }
  }

  /** A power of two is `2^nbits` with `nbits = n.toString(2).length - 1`. */
  lemma {:induction false} PowerOfTwoDigits(n: nat)
    requires IsPowerOfTwo(n)
    ensures n == Pow2(BinaryDigits(n) - 1)
    decreases n
  {
    if n >= 2 {
      PowerOfTwoDigits(n / 2);
    }
  }

  /**
   * For any other positive size the cell size `N / 2^nbits` of the last pass
   * is not an integer, so that pass indexes a row that does not exist.
   */
  lemma FractionalLastPass(n: nat)
    requires n >= 1 && !IsPowerOfTwo(n)
    ensures BinaryDigits(n) >= 2
    ensures n % Pow2(BinaryDigits(n) - 1) != 0
  {
    var d := BinaryDigits(n);
    BinaryDigitsBounds(n);
    Pow2IsPowerOfTwo(d - 1);
    if d >= 2 && n % Pow2(d - 1) == 0 {
      OnlyMultipleBelowDouble(n, Pow2(d - 1));
    }
  }

  lemma OnlyMultipleBelowDouble(n: nat, p: nat)
    requires 1 <= p <= n < 2 * p && n % p == 0
    ensures n == p
  {
    var q := n / p;
    assert n == p * q;
  }

  /** `random()`: `randomness * (-1 + 2 * randomInt())`. */
  function Random(randomness: real, u: real): (r: real)
    ensures randomness == 0.0 ==> r == 0.0
  {
    randomness * (-1.0 + 2.0 * u)
  }

  /**
   * Running `_createTerrain` on a positive size that is not a power of two
   * reaches a fractional row index and throws.
   */
  datatype TerrainError = FractionalIndex

  /** A heightmap: rows of heights, `terrain[w][z]`. */
  type Grid = seq<seq<real>>

  predicate IsGrid(g: Grid, n: nat) {
    |g| == n && forall i :: 0 <= i < n ==> |g[i]| == n
  }

  /** Every height of an `n` by `n` grid is 0. */
  predicate Flat(g: Grid, n: nat)
    requires IsGrid(g, n)
  {
    forall i, j :: 0 <= i < n && 0 <= j < n ==> g[i][j] == 0.0
  }

  /** The rows as allocated: `new Float32Array(N + 1)` holds zeros. */
  function ZeroGrid(n: nat): (g: Grid)
    ensures IsGrid(g, n) && Flat(g, n)
  {
    seq(n, _ => seq(n, _ => 0.0))
  }

  /*
   * The lattice of one pass. With cell size `x`, a pass fills the rows and
   * columns at the odd multiples of `x` from their neighbours at the
   * multiples of `2x`. On a side of length `h * 2x` there are `h` odd
   * multiples `Mid(k) = k * 2x + x` and `h + 1` multiples `Even(k) = k * 2x`.
   */

  /** The position of `i` on the lattice of step `2x`: `i = Lat(i, x) * 2x + Rem(i, x)`. */
  function Lat(i: nat, x: nat): nat
    requires x >= 1
    decreases i
  {
    if i < 2 * x then 0 else 1 + Lat(i - 2 * x, x)
  }

  /** The offset of `i` from the lattice point below it. */
  function Rem(i: nat, x: nat): nat
    requires x >= 1
    decreases i
  {
    if i < 2 * x then i else Rem(i - 2 * x, x)
  }

  lemma {:induction false} LatRem(i: nat, x: nat)
    requires x >= 1
    ensures i == Lat(i, x) * (2 * x) + Rem(i, x) && Rem(i, x) < 2 * x
    decreases i
  {
    if i >= 2 * x {
      LatRem(i - 2 * x, x);
      assert (Lat(i - 2 * x, x) + 1) * (2 * x) == Lat(i - 2 * x, x) * (2 * x) + 2 * x;
    }
  }

  lemma {:induction false} LatOf(q: nat, x: nat, r: nat)
    requires x >= 1 && r < 2 * x
    ensures Lat(q * (2 * x) + r, x) == q && Rem(q * (2 * x) + r, x) == r
    decreases q
  {
    if q > 0 {
      LatOf(q - 1, x, r);
      assert q * (2 * x) + r - 2 * x == (q - 1) * (2 * x) + r;
    }
  }

  lemma MulLe(a: nat, b: nat, c: nat)
    requires a <= b
    ensures a * c <= b * c
  {
    assert b * c - a * c == (b - a) * c;
  }

  /** `i` is an odd multiple of `x`. */
  predicate Odd(i: nat, x: nat)
    requires x >= 1
  {
    Rem(i, x) == x
  }

  /** `i` is a multiple of `2x`. */
  predicate On(i: nat, x: nat)
    requires x >= 1
  {
    Rem(i, x) == 0
  }

  /** `2kx`, a multiple of `2x` on a side of length `h * 2x`. */
  function Even(k: nat, x: nat, h: nat): (r: nat)
    requires x >= 1 && k <= h
    ensures r <= h * (2 * x)
  {
    MulLe(k, h, 2 * x);
    k * (2 * x)
  }

  /** `(2k + 1)x`, the odd multiple of `x` between `Even(k)` and `Even(k + 1)`. */
  function Mid(k: nat, x: nat, h: nat): (r: nat)
    requires x >= 1 && k < h
    ensures r == Even(k, x, h) + x && r + x == Even(k + 1, x, h)
  {
    k * (2 * x) + x
  }

  /** Where `Even(k)` and `Mid(k)` lie on the lattice. */
  lemma Positions(k: nat, x: nat, h: nat)
    requires x >= 1 && k <= h
    ensures On(Even(k, x, h), x) && Lat(Even(k, x, h), x) == k
    ensures k < h ==> Odd(Mid(k, x, h), x) && Lat(Mid(k, x, h), x) == k
  {
    LatOf(k, x, 0);
    LatOf(k, x, x);
  }

  /** Every odd multiple of `x` on the side is some `Mid(k)`. */
  lemma OddIsMid(i: nat, x: nat, h: nat)
    requires x >= 1 && Odd(i, x) && i <= h * (2 * x)
    ensures Lat(i, x) < h && i == Mid(Lat(i, x), x, h)
  {
    LatRem(i, x);
    if Lat(i, x) >= h {
      MulLe(h, Lat(i, x), 2 * x);
    }
  }

  /** Every multiple of `2x` on the side is some `Even(k)`. */
  lemma OnIsEven(i: nat, x: nat, h: nat)
    requires x >= 1 && On(i, x) && i <= h * (2 * x)
    ensures Lat(i, x) <= h && i == Even(Lat(i, x), x, h)
  {
    LatRem(i, x);
  }

  /** Both ends of a side lie on the lattice. */
  lemma EndsOn(x: nat, h: nat)
    requires x >= 1
    ensures On(0, x) && On(h * (2 * x), x)
  {
    LatOf(h, x, 0);
  }

  /** The cells the first loop of a pass writes: one coordinate an odd multiple of `x`, the other a multiple of `2x`. */
  predicate EdgeCell(i: nat, j: nat, x: nat)
    requires x >= 1
  {
    (Odd(i, x) && On(j, x)) || (On(i, x) && Odd(j, x))
  }

  /** The cells the second loop writes: both coordinates odd multiples of `x`. */
  predicate CentreCell(i: nat, j: nat, x: nat)
    requires x >= 1
  {
    Odd(i, x) && Odd(j, x)
  }

  /** The shape of a pass: cell size `x`, `h` odd multiples on a side of length `N = h * 2x`. */
  predicate PassShape(g: Grid, size: nat, x: nat, h: nat) {
    IsGrid(g, size + 1) && x >= 1 && size == h * (2 * x)
  }

  /**
   * `terrain[n * x][v]` for `n = 2k + 1` and `v = 2 * iv * x`: the mean of the
   * cells above and below plus `random()`, the `2(iv * h + k)`-th call of the pass.
   */
  function VerticalMid(g: Grid, size: nat, x: nat, h: nat, rnd: real, randomInt: nat -> real, calls: nat, iv: nat, k: nat): real
    requires PassShape(g, size, x, h) && iv <= h && k < h
  {
    (g[Even(k, x, h)][Even(iv, x, h)] + g[Even(k + 1, x, h)][Even(iv, x, h)]) / 2.0
      + Random(rnd, randomInt(calls + 2 * (iv * h + k)))
  }

  /** `terrain[v][n * x]`: the mean of the cells left and right plus the next call of `random()`. */
  function HorizontalMid(g: Grid, size: nat, x: nat, h: nat, rnd: real, randomInt: nat -> real, calls: nat, iv: nat, k: nat): real
    requires PassShape(g, size, x, h) && iv <= h && k < h
  {
    (g[Even(iv, x, h)][Even(k, x, h)] + g[Even(iv, x, h)][Even(k + 1, x, h)]) / 2.0
      + Random(rnd, randomInt(calls + 2 * (iv * h + k) + 1))
  }

  /** `terrain[n * x][m * x]` for `n = 2a + 1`, `m = 2b + 1`: a quarter of its four neighbours plus call `a * h + b`. */
  function CentreMid(g: Grid, size: nat, x: nat, h: nat, rnd: real, randomInt: nat -> real, calls: nat, a: nat, b: nat): real
    requires PassShape(g, size, x, h) && a < h && b < h
  {
    0.25 * (g[Even(a + 1, x, h)][Mid(b, x, h)] + g[Even(a, x, h)][Mid(b, x, h)]
            + g[Mid(a, x, h)][Even(b + 1, x, h)] + g[Mid(a, x, h)][Even(b, x, h)])
      + Random(rnd, randomInt(calls + a * h + b))
  }

  /** Step `(a, b)` of a doubly nested loop comes before step `(c, d)`. */
  predicate Earlier(a: nat, b: nat, c: nat, d: nat) {
    a < c || (a == c && b < d)
  }

  /**
   * The first loop of a pass over `g`, given that it starts at call number
   * `calls`: every edge midpoint of `g'` is its `VerticalMid` or
   * `HorizontalMid` over `g`, and every other cell is kept.
   */
  predicate EdgeUpdated(g: Grid, g': Grid, size: nat, x: nat, h: nat, rnd: real, randomInt: nat -> real, calls: nat)
    requires PassShape(g, size, x, h) && PassShape(g', size, x, h)
  {
    && (forall iv, k :: 0 <= iv <= h && 0 <= k < h ==>
          g'[Mid(k, x, h)][Even(iv, x, h)] == VerticalMid(g, size, x, h, rnd, randomInt, calls, iv, k))
    && (forall iv, k :: 0 <= iv <= h && 0 <= k < h ==>
          g'[Even(iv, x, h)][Mid(k, x, h)] == HorizontalMid(g, size, x, h, rnd, randomInt, calls, iv, k))
    && (forall i, j :: 0 <= i <= size && 0 <= j <= size && !EdgeCell(i, j, x) ==> g'[i][j] == g[i][j])
  }

  /** The second loop of a pass over `g`: every centre is its `CentreMid` over `g`, and every other cell is kept. */
  predicate CentreUpdated(g: Grid, g': Grid, size: nat, x: nat, h: nat, rnd: real, randomInt: nat -> real, calls: nat)
    requires PassShape(g, size, x, h) && PassShape(g', size, x, h)
  {
    && (forall a, b :: 0 <= a < h && 0 <= b < h ==>
          g'[Mid(a, x, h)][Mid(b, x, h)] == CentreMid(g, size, x, h, rnd, randomInt, calls, a, b))
    && (forall i, j :: 0 <= i <= size && 0 <= j <= size && !CentreCell(i, j, x) ==> g'[i][j] == g[i][j])
  }

  /** The calls of the first loop of a pass: two for each of `h + 1` lines and `h` odd multiples. */
  function EdgeCalls(h: nat): nat {
    2 * (h + 1) * h
  }

  /** The calls of one pass: the first loop's and `h^2` in the second. */
  function PassCalls(h: nat): nat {
    EdgeCalls(h) + h * h
  }

  /**
   * One whole pass from `before` to `after`: the edge midpoints come from
   * `before`, the centres from the edge midpoints just written (the second
   * loop never overwrites them), and every other cell is kept.
   */
  predicate PassUpdated(before: Grid, after: Grid, size: nat, x: nat, h: nat, rnd: real, randomInt: nat -> real, calls: nat)
    requires PassShape(before, size, x, h) && PassShape(after, size, x, h)
  {
    && (forall iv, k :: 0 <= iv <= h && 0 <= k < h ==>
          after[Mid(k, x, h)][Even(iv, x, h)] == VerticalMid(before, size, x, h, rnd, randomInt, calls, iv, k))
    && (forall iv, k :: 0 <= iv <= h && 0 <= k < h ==>
          after[Even(iv, x, h)][Mid(k, x, h)] == HorizontalMid(before, size, x, h, rnd, randomInt, calls, iv, k))
    && (forall a, b :: 0 <= a < h && 0 <= b < h ==>
          after[Mid(a, x, h)][Mid(b, x, h)] == CentreMid(after, size, x, h, rnd, randomInt, calls + EdgeCalls(h), a, b))
    && (forall i, j :: 0 <= i <= size && 0 <= j <= size && !EdgeCell(i, j, x) && !CentreCell(i, j, x) ==>
          after[i][j] == before[i][j])
  }

  /** The two loops of a pass make up `PassUpdated`. */
  lemma CombinePass(g: Grid, mid: Grid, g': Grid, size: nat, x: nat, h: nat, rnd: real, randomInt: nat -> real, calls: nat)
    requires PassShape(g, size, x, h) && PassShape(mid, size, x, h) && PassShape(g', size, x, h)
    requires EdgeUpdated(g, mid, size, x, h, rnd, randomInt, calls)
    requires CentreUpdated(mid, g', size, x, h, rnd, randomInt, calls + EdgeCalls(h))
    ensures PassUpdated(g, g', size, x, h, rnd, randomInt, calls)
  {
    forall iv, k | 0 <= iv <= h && 0 <= k < h
      ensures g'[Mid(k, x, h)][Even(iv, x, h)] == mid[Mid(k, x, h)][Even(iv, x, h)]
      ensures g'[Even(iv, x, h)][Mid(k, x, h)] == mid[Even(iv, x, h)][Mid(k, x, h)]
    {
      Positions(iv, x, h);
      Positions(k, x, h);
    }
    var centreCalls := calls + EdgeCalls(h);
    forall a, b | 0 <= a < h && 0 <= b < h
      ensures CentreMid(g', size, x, h, rnd, randomInt, centreCalls, a, b)
           == CentreMid(mid, size, x, h, rnd, randomInt, centreCalls, a, b)
    {
      Positions(a, x, h);
      Positions(a + 1, x, h);
      Positions(b, x, h);
      Positions(b + 1, x, h);
    }
  }

  /** The first loop's cells written before step `(iv, k)` of the `v`, `n` loops. */
  predicate EdgeDone(i: nat, j: nat, x: nat, iv: nat, k: nat)
    requires x >= 1
  {
    || (Odd(i, x) && On(j, x) && Earlier(Lat(j, x), Lat(i, x), iv, k))
    || (On(i, x) && Odd(j, x) && Earlier(Lat(i, x), Lat(j, x), iv, k))
  }

  /** The first loop's invariant before step `(iv, k)`. */
  predicate EdgeProgress(g: Grid, g': Grid, size: nat, x: nat, h: nat, rnd: real, randomInt: nat -> real, calls: nat, iv: nat, k: nat)
    requires PassShape(g, size, x, h) && PassShape(g', size, x, h)
  {
    && (forall v, n :: 0 <= v <= h && 0 <= n < h && Earlier(v, n, iv, k) ==>
          g'[Mid(n, x, h)][Even(v, x, h)] == VerticalMid(g, size, x, h, rnd, randomInt, calls, v, n))
    && (forall v, n :: 0 <= v <= h && 0 <= n < h && Earlier(v, n, iv, k) ==>
          g'[Even(v, x, h)][Mid(n, x, h)] == HorizontalMid(g, size, x, h, rnd, randomInt, calls, v, n))
    && (forall i, j :: 0 <= i <= size && 0 <= j <= size && !EdgeDone(i, j, x, iv, k) ==> g'[i][j] == g[i][j])
  }

  /** The inner loop of the first loop, at column (and row) `v = iv * 2x`. */
  method EdgeLine(ghost g0: Grid, g: Grid, size: nat, t: nat, x: nat, v: nat, rnd: real, randomInt: nat -> real,
                  ghost calls0: nat, calls: nat, ghost iv: nat)
    returns (g': Grid, calls': nat)
    requires t % 2 == 1 && PassShape(g0, size, x, (t + 1) / 2) && PassShape(g, size, x, (t + 1) / 2)
    requires iv <= (t + 1) / 2 && v == Even(iv, x, (t + 1) / 2)
    requires calls == calls0 + 2 * (iv * ((t + 1) / 2))
    requires EdgeProgress(g0, g, size, x, (t + 1) / 2, rnd, randomInt, calls0, iv, 0)
    ensures PassShape(g', size, x, (t + 1) / 2)
    ensures EdgeProgress(g0, g', size, x, (t + 1) / 2, rnd, randomInt, calls0, iv + 1, 0)
    ensures calls' == calls + 2 * ((t + 1) / 2)
  {
    ghost var h := (t + 1) / 2;
    g', calls' := g, calls;
    var n := 1;
    ghost var k := 0;
    while n <= t
      invariant n == 2 * k + 1 && k <= h
      invariant PassShape(g', size, x, h)
      invariant EdgeProgress(g0, g', size, x, h, rnd, randomInt, calls0, iv, k)
      invariant calls' == calls + 2 * k
    {
      g' := EdgeStep(g0, g', size, x, h, n, v, rnd, randomInt, calls0, calls', iv, k);
      calls' := calls' + 2;
      n := n + 2;
      k := k + 1;
    }
    EdgeLineDone(g0, g', size, x, h, rnd, randomInt, calls0, iv);
  }

  /** One step of the inner loop: the midpoints `terrain[n * x][v]` and `terrain[v][n * x]`. */
  method EdgeStep(ghost g0: Grid, g: Grid, size: nat, x: nat, ghost h: nat, n: nat, v: nat, rnd: real, randomInt: nat -> real,
                  ghost calls0: nat, calls: nat, ghost iv: nat, ghost k: nat)
    returns (g': Grid)
    requires PassShape(g0, size, x, h) && PassShape(g, size, x, h)
    requires iv <= h && k < h && n == 2 * k + 1 && v == Even(iv, x, h)
    requires calls == calls0 + 2 * (iv * h + k)
    requires EdgeProgress(g0, g, size, x, h, rnd, randomInt, calls0, iv, k)
    ensures PassShape(g', size, x, h)
    ensures EdgeProgress(g0, g', size, x, h, rnd, randomInt, calls0, iv, k + 1)
  {
    EdgeIndices(g, size, x, h, rnd, randomInt, calls0, iv, k, n);
    var up := VerticalAt(g, size, n, v, x, Random(rnd, randomInt(calls)));
    var g1 := g[n * x := g[n * x][v := up]];
    EdgeIndices(g1, size, x, h, rnd, randomInt, calls0, iv, k, n);
    var left := HorizontalAt(g1, size, n, v, x, Random(rnd, randomInt(calls + 1)));
    g' := g1[v := g1[v][n * x := left]];
    EdgeWrite(g0, g, g1, g', size, x, h, rnd, randomInt, calls0, iv, k, up, left);
  }

  /** The indices of step `k` of an inner loop, at `n = 2k + 1`: `n * x` and its neighbours `n * x ± x`. */
  lemma OddMultiple(n: nat, k: nat, x: nat, h: nat)
    requires x >= 1 && k < h && n == 2 * k + 1
    ensures n * x == Mid(k, x, h) && n * x - x == Even(k, x, h) && n * x + x == Even(k + 1, x, h)
    ensures (n - 1) * x == Even(k, x, h) && (n + 1) * x == Even(k + 1, x, h)
  {
  }

  /** The first loop body's `(terrain[(n - 1) * x][v] + terrain[(n + 1) * x][v]) / 2 + random`. */
  function VerticalAt(g: Grid, size: nat, n: nat, v: nat, x: nat, r: real): real
    requires IsGrid(g, size + 1) && n >= 1 && (n + 1) * x <= size && v <= size
  {
    assert (n - 1) * x <= (n + 1) * x;
    (g[(n - 1) * x][v] + g[(n + 1) * x][v]) / 2.0 + r
  }

  /** The first loop body's `(terrain[v][(n - 1) * x] + terrain[v][(n + 1) * x]) / 2 + random`. */
  function HorizontalAt(g: Grid, size: nat, n: nat, v: nat, x: nat, r: real): real
    requires IsGrid(g, size + 1) && n >= 1 && (n + 1) * x <= size && v <= size
  {
    assert (n - 1) * x <= (n + 1) * x;
    (g[v][(n - 1) * x] + g[v][(n + 1) * x]) / 2.0 + r
  }

  /** The second loop body's quarter of the four neighbours of `terrain[n * x][m * x]`, plus `random`. */
  function CentreAt(g: Grid, size: nat, n: nat, m: nat, x: nat, r: real): real
    requires IsGrid(g, size + 1) && x <= n * x && n * x + x <= size && x <= m * x && m * x + x <= size
  {
    0.25 * (g[n * x + x][m * x] + g[n * x - x][m * x] + g[n * x][m * x + x] + g[n * x][m * x - x]) + r
  }

  /** Step `k` of line `iv` of the first loop computes `VerticalMid` and `HorizontalMid`. */
  lemma EdgeIndices(g: Grid, size: nat, x: nat, h: nat, rnd: real, randomInt: nat -> real, calls0: nat, iv: nat, k: nat, n: nat)
    requires PassShape(g, size, x, h) && iv <= h && k < h && n == 2 * k + 1
    ensures n * x == Mid(k, x, h) && (n + 1) * x <= size
    ensures VerticalAt(g, size, n, Even(iv, x, h), x, Random(rnd, randomInt(calls0 + 2 * (iv * h + k))))
            == VerticalMid(g, size, x, h, rnd, randomInt, calls0, iv, k)
    ensures HorizontalAt(g, size, n, Even(iv, x, h), x, Random(rnd, randomInt(calls0 + 2 * (iv * h + k) + 1)))
            == HorizontalMid(g, size, x, h, rnd, randomInt, calls0, iv, k)
  {
    OddMultiple(n, k, x, h);
  }

  /** Step `b` of row `a` of the second loop computes `CentreMid`. */
  lemma CentreIndices(g: Grid, size: nat, x: nat, h: nat, rnd: real, randomInt: nat -> real, calls0: nat, a: nat, b: nat, n: nat, m: nat)
    requires PassShape(g, size, x, h) && a < h && b < h && n == 2 * a + 1 && m == 2 * b + 1
    ensures n * x == Mid(a, x, h) && m * x == Mid(b, x, h)
    ensures x <= n * x && n * x + x <= size && x <= m * x && m * x + x <= size
    ensures CentreAt(g, size, n, m, x, Random(rnd, randomInt(calls0 + a * h + b)))
            == CentreMid(g, size, x, h, rnd, randomInt, calls0, a, b)
  {
    OddMultiple(n, a, x, h);
    OddMultiple(m, b, x, h);
    assert g[n * x + x][m * x] == g[Even(a + 1, x, h)][Mid(b, x, h)];
    assert g[n * x - x][m * x] == g[Even(a, x, h)][Mid(b, x, h)];
    assert g[n * x][m * x + x] == g[Mid(a, x, h)][Even(b + 1, x, h)];
    assert g[n * x][m * x - x] == g[Mid(a, x, h)][Even(b, x, h)];
  }

  /** The two writes of one step extend the invariant by that step. */
  lemma EdgeWrite(g0: Grid, g: Grid, g1: Grid, g': Grid, size: nat, x: nat, h: nat, rnd: real, randomInt: nat -> real,
                  calls0: nat, iv: nat, k: nat, up: real, left: real)
    requires PassShape(g0, size, x, h) && PassShape(g, size, x, h)
    requires iv <= h && k < h
    requires EdgeProgress(g0, g, size, x, h, rnd, randomInt, calls0, iv, k)
    requires up == VerticalMid(g, size, x, h, rnd, randomInt, calls0, iv, k)
    requires g1 == g[Mid(k, x, h) := g[Mid(k, x, h)][Even(iv, x, h) := up]]
    requires left == HorizontalMid(g1, size, x, h, rnd, randomInt, calls0, iv, k)
    requires g' == g1[Even(iv, x, h) := g1[Even(iv, x, h)][Mid(k, x, h) := left]]
    ensures PassShape(g', size, x, h)
    ensures EdgeProgress(g0, g', size, x, h, rnd, randomInt, calls0, iv, k + 1)
  {
    Positions(iv, x, h);
    Positions(k, x, h);
    EdgeReads(g0, g, size, x, h, rnd, randomInt, calls0, iv, k);
    assert g1[Even(iv, x, h)] == g[Even(iv, x, h)];
    EdgeValues(g0, g, g1, g', size, x, h, rnd, randomInt, calls0, iv, k, up, left);
    EdgeFrame(g0, g, g1, g', size, x, h, iv, k, up, left);
  }

  /** The cells a step reads are not yet written. */
  lemma EdgeReads(g0: Grid, g: Grid, size: nat, x: nat, h: nat, rnd: real, randomInt: nat -> real, calls0: nat, iv: nat, k: nat)
    requires PassShape(g0, size, x, h) && PassShape(g, size, x, h)
    requires iv <= h && k < h
    requires forall i, j :: 0 <= i <= size && 0 <= j <= size && !EdgeDone(i, j, x, iv, k) ==> g[i][j] == g0[i][j]
    ensures VerticalMid(g, size, x, h, rnd, randomInt, calls0, iv, k) == VerticalMid(g0, size, x, h, rnd, randomInt, calls0, iv, k)
    ensures HorizontalMid(g, size, x, h, rnd, randomInt, calls0, iv, k) == HorizontalMid(g0, size, x, h, rnd, randomInt, calls0, iv, k)
  {
    Positions(iv, x, h);
    Positions(k, x, h);
    Positions(k + 1, x, h);
  }

  /** After a step every midpoint up to it holds its value. */
  lemma EdgeValues(g0: Grid, g: Grid, g1: Grid, g': Grid, size: nat, x: nat, h: nat, rnd: real, randomInt: nat -> real,
                   calls0: nat, iv: nat, k: nat, up: real, left: real)
    requires PassShape(g0, size, x, h) && PassShape(g, size, x, h)
    requires iv <= h && k < h
    requires EdgeProgress(g0, g, size, x, h, rnd, randomInt, calls0, iv, k)
    requires up == VerticalMid(g0, size, x, h, rnd, randomInt, calls0, iv, k)
    requires left == HorizontalMid(g0, size, x, h, rnd, randomInt, calls0, iv, k)
    requires g1 == g[Mid(k, x, h) := g[Mid(k, x, h)][Even(iv, x, h) := up]]
    requires g' == g1[Even(iv, x, h) := g1[Even(iv, x, h)][Mid(k, x, h) := left]]
    ensures forall v, n :: 0 <= v <= h && 0 <= n < h && Earlier(v, n, iv, k + 1) ==>
      g'[Mid(n, x, h)][Even(v, x, h)] == VerticalMid(g0, size, x, h, rnd, randomInt, calls0, v, n)
    ensures forall v, n :: 0 <= v <= h && 0 <= n < h && Earlier(v, n, iv, k + 1) ==>
      g'[Even(v, x, h)][Mid(n, x, h)] == HorizontalMid(g0, size, x, h, rnd, randomInt, calls0, v, n)
  {
    forall v, n | 0 <= v <= h && 0 <= n < h && Earlier(v, n, iv, k + 1)
      ensures g'[Mid(n, x, h)][Even(v, x, h)] == VerticalMid(g0, size, x, h, rnd, randomInt, calls0, v, n)
      ensures g'[Even(v, x, h)][Mid(n, x, h)] == HorizontalMid(g0, size, x, h, rnd, randomInt, calls0, v, n)
    {
      EdgeValueAt(g0, g, g1, g', size, x, h, rnd, randomInt, calls0, iv, k, up, left, v, n);
    }
  }

  /** `EdgeValues` at one midpoint pair `(v, n)`. */
  lemma EdgeValueAt(g0: Grid, g: Grid, g1: Grid, g': Grid, size: nat, x: nat, h: nat, rnd: real, randomInt: nat -> real,
                    calls0: nat, iv: nat, k: nat, up: real, left: real, v: nat, n: nat)
    requires PassShape(g0, size, x, h) && PassShape(g, size, x, h)
    requires iv <= h && k < h && v <= h && n < h && Earlier(v, n, iv, k + 1)
    requires EdgeProgress(g0, g, size, x, h, rnd, randomInt, calls0, iv, k)
    requires up == VerticalMid(g0, size, x, h, rnd, randomInt, calls0, iv, k)
    requires left == HorizontalMid(g0, size, x, h, rnd, randomInt, calls0, iv, k)
    requires g1 == g[Mid(k, x, h) := g[Mid(k, x, h)][Even(iv, x, h) := up]]
    requires g' == g1[Even(iv, x, h) := g1[Even(iv, x, h)][Mid(k, x, h) := left]]
    ensures g'[Mid(n, x, h)][Even(v, x, h)] == VerticalMid(g0, size, x, h, rnd, randomInt, calls0, v, n)
    ensures g'[Even(v, x, h)][Mid(n, x, h)] == HorizontalMid(g0, size, x, h, rnd, randomInt, calls0, v, n)
  {
    Positions(iv, x, h);
    Positions(k, x, h);
    Positions(v, x, h);
    Positions(n, x, h);
    EdgeKept(g, g1, g', size, Mid(k, x, h), Even(iv, x, h), up, left, Mid(n, x, h), Even(v, x, h));
    EdgeKept(g, g1, g', size, Mid(k, x, h), Even(iv, x, h), up, left, Even(v, x, h), Mid(n, x, h));
  }

  /** A step writes no cell outside the step. */
  lemma EdgeFrame(g0: Grid, g: Grid, g1: Grid, g': Grid, size: nat, x: nat, h: nat, iv: nat, k: nat, up: real, left: real)
    requires PassShape(g0, size, x, h) && PassShape(g, size, x, h)
    requires iv <= h && k < h
    requires forall i, j :: 0 <= i <= size && 0 <= j <= size && !EdgeDone(i, j, x, iv, k) ==> g[i][j] == g0[i][j]
    requires g1 == g[Mid(k, x, h) := g[Mid(k, x, h)][Even(iv, x, h) := up]]
    requires g' == g1[Even(iv, x, h) := g1[Even(iv, x, h)][Mid(k, x, h) := left]]
    ensures IsGrid(g', size + 1)
    ensures forall i, j :: 0 <= i <= size && 0 <= j <= size && !EdgeDone(i, j, x, iv, k + 1) ==> g'[i][j] == g0[i][j]
  {
    Positions(iv, x, h);
    Positions(k, x, h);
    forall i, j | 0 <= i <= size && 0 <= j <= size && !EdgeDone(i, j, x, iv, k + 1)
      ensures g'[i][j] == g0[i][j]
    {
      EdgeKept(g, g1, g', size, Mid(k, x, h), Even(iv, x, h), up, left, i, j);
    }
  }

  /** The two writes at `(r, c)` and `(c, r)` keep every other cell. */
  lemma EdgeKept(g: Grid, g1: Grid, g': Grid, size: nat, r: nat, c: nat, up: real, left: real, i: nat, j: nat)
    requires IsGrid(g, size + 1) && r <= size && c <= size && r != c
    requires g1 == g[r := g[r][c := up]] && g' == g1[c := g1[c][r := left]]
    requires i <= size && j <= size
    ensures IsGrid(g1, size + 1) && IsGrid(g', size + 1)
    ensures g'[i][j] == if i == r && j == c then up else if i == c && j == r then left else g[i][j]
  {
  }

  /** After the inner loop the whole line `iv` is done. */
  lemma EdgeLineDone(g0: Grid, g: Grid, size: nat, x: nat, h: nat, rnd: real, randomInt: nat -> real, calls0: nat, iv: nat)
    requires PassShape(g0, size, x, h) && PassShape(g, size, x, h)
    requires EdgeProgress(g0, g, size, x, h, rnd, randomInt, calls0, iv, h)
    ensures EdgeProgress(g0, g, size, x, h, rnd, randomInt, calls0, iv + 1, 0)
  {
    forall i, j | 0 <= i <= size && 0 <= j <= size && !EdgeDone(i, j, x, iv + 1, 0)
      ensures !EdgeDone(i, j, x, iv, h)
    {
      if Odd(i, x) {
        OddIsMid(i, x, h);
      }
      if Odd(j, x) {
        OddIsMid(j, x, h);
      }
    }
  }

  /**
   * The first loop of a pass (`for v ... for n ...`): it writes exactly the
   * edge midpoints, each from the grid before the loop, and calls `random()`
   * twice per step.
   */
  method EdgePass(g: Grid, size: nat, t: nat, x: nat, rnd: real, randomInt: nat -> real, calls: nat)
    returns (g': Grid, calls': nat)
    requires t % 2 == 1 && PassShape(g, size, x, (t + 1) / 2)
    ensures PassShape(g', size, x, (t + 1) / 2)
    ensures EdgeUpdated(g, g', size, x, (t + 1) / 2, rnd, randomInt, calls)
    ensures calls' == calls + EdgeCalls((t + 1) / 2)
  {
    ghost var h := (t + 1) / 2;
    g', calls' := g, calls;
    var v := 0;
    ghost var iv := 0;
    while v <= size
      invariant iv <= h + 1 && v == iv * (2 * x)
      invariant PassShape(g', size, x, h)
      invariant EdgeProgress(g, g', size, x, h, rnd, randomInt, calls, iv, 0)
      invariant calls' == calls + 2 * (iv * h)
      decreases size + 1 - v
    {
      LatticeStop(iv, x, h);
      g', calls' := EdgeLine(g, g', size, t, x, v, rnd, randomInt, calls, calls', iv);
      SuccMul(iv, h);
      v := v + 2 * x;
      iv := iv + 1;
    }
    LatticeStop(iv, x, h);
    EdgeFinish(g, g', size, x, h, rnd, randomInt, calls);
  }

  /** Once every line is done the first loop has made `EdgeUpdated`, with `EdgeCalls(h)` calls. */
  lemma EdgeFinish(g: Grid, g': Grid, size: nat, x: nat, h: nat, rnd: real, randomInt: nat -> real, calls: nat)
    requires PassShape(g, size, x, h) && PassShape(g', size, x, h)
    requires EdgeProgress(g, g', size, x, h, rnd, randomInt, calls, h + 1, 0)
    ensures EdgeUpdated(g, g', size, x, h, rnd, randomInt, calls)
    ensures 2 * ((h + 1) * h) == EdgeCalls(h)
  {
    forall i, j | 0 <= i <= size && 0 <= j <= size && !EdgeCell(i, j, x)
      ensures !EdgeDone(i, j, x, h + 1, 0)
    {
    }
  }

  /** The loop over `v` runs while `iv * 2x <= h * 2x`, that is while `iv <= h`. */
  lemma LatticeStop(iv: nat, x: nat, h: nat)
    requires x >= 1
    ensures iv * (2 * x) <= h * (2 * x) <==> iv <= h
    ensures iv * (2 * x) + 2 * x == (iv + 1) * (2 * x)
  {
    if iv > h {
      MulLe(h + 1, iv, 2 * x);
    } else {
      MulLe(iv, h, 2 * x);
    }
  }

  lemma SuccMul(a: nat, h: nat)
    ensures a * h + h == (a + 1) * h
  {
  }

  /** The second loop's cells written before step `(a, b)` of the `n`, `m` loops. */
  predicate CentreDone(i: nat, j: nat, x: nat, a: nat, b: nat)
    requires x >= 1
  {
    Odd(i, x) && Odd(j, x) && Earlier(Lat(i, x), Lat(j, x), a, b)
  }

  /** The second loop's invariant before step `(a, b)`. */
  predicate CentreProgress(g: Grid, g': Grid, size: nat, x: nat, h: nat, rnd: real, randomInt: nat -> real, calls: nat, a: nat, b: nat)
    requires PassShape(g, size, x, h) && PassShape(g', size, x, h)
  {
    && (forall n, m :: 0 <= n < h && 0 <= m < h && Earlier(n, m, a, b) ==>
          g'[Mid(n, x, h)][Mid(m, x, h)] == CentreMid(g, size, x, h, rnd, randomInt, calls, n, m))
    && (forall i, j :: 0 <= i <= size && 0 <= j <= size && !CentreDone(i, j, x, a, b) ==> g'[i][j] == g[i][j])
  }

  /** The inner loop of the second loop, at row `n * x` with `n = 2a + 1`. */
  method CentreLine(ghost g0: Grid, g: Grid, size: nat, t: nat, x: nat, n: nat, rnd: real, randomInt: nat -> real,
                    ghost calls0: nat, calls: nat, ghost a: nat)
    returns (g': Grid, calls': nat)
    requires t % 2 == 1 && PassShape(g0, size, x, (t + 1) / 2) && PassShape(g, size, x, (t + 1) / 2)
    requires a < (t + 1) / 2 && n == 2 * a + 1
    requires calls == calls0 + a * ((t + 1) / 2)
    requires CentreProgress(g0, g, size, x, (t + 1) / 2, rnd, randomInt, calls0, a, 0)
    ensures PassShape(g', size, x, (t + 1) / 2)
    ensures CentreProgress(g0, g', size, x, (t + 1) / 2, rnd, randomInt, calls0, a + 1, 0)
    ensures calls' == calls + (t + 1) / 2
  {
    ghost var h := (t + 1) / 2;
    g', calls' := g, calls;
    var m := 1;
    ghost var b := 0;
    while m <= t
      invariant m == 2 * b + 1 && b <= h
      invariant PassShape(g', size, x, h)
      invariant CentreProgress(g0, g', size, x, h, rnd, randomInt, calls0, a, b)
      invariant calls' == calls + b
    {
      g' := CentreStep(g0, g', size, x, h, n, m, rnd, randomInt, calls0, calls', a, b);
      calls' := calls' + 1;
      m := m + 2;
      b := b + 1;
    }
    CentreLineDone(g0, g', size, x, h, rnd, randomInt, calls0, a);
  }

  /** One step of the inner loop: the centre `terrain[n * x][m * x]`. */
  method CentreStep(ghost g0: Grid, g: Grid, size: nat, x: nat, ghost h: nat, n: nat, m: nat, rnd: real, randomInt: nat -> real,
                    ghost calls0: nat, calls: nat, ghost a: nat, ghost b: nat)
    returns (g': Grid)
    requires PassShape(g0, size, x, h) && PassShape(g, size, x, h)
    requires a < h && b < h && n == 2 * a + 1 && m == 2 * b + 1
    requires calls == calls0 + a * h + b
    requires CentreProgress(g0, g, size, x, h, rnd, randomInt, calls0, a, b)
    ensures PassShape(g', size, x, h)
    ensures CentreProgress(g0, g', size, x, h, rnd, randomInt, calls0, a, b + 1)
  {
    CentreIndices(g, size, x, h, rnd, randomInt, calls0, a, b, n, m);
    var c := CentreAt(g, size, n, m, x, Random(rnd, randomInt(calls)));
    g' := g[n * x := g[n * x][m * x := c]];
    CentreWrite(g0, g, g', size, x, h, rnd, randomInt, calls0, a, b, c);
  }

  /** The write of one step extends the invariant by that step. */
  lemma CentreWrite(g0: Grid, g: Grid, g': Grid, size: nat, x: nat, h: nat, rnd: real, randomInt: nat -> real,
                    calls0: nat, a: nat, b: nat, c: real)
    requires PassShape(g0, size, x, h) && PassShape(g, size, x, h)
    requires a < h && b < h
    requires CentreProgress(g0, g, size, x, h, rnd, randomInt, calls0, a, b)
    requires c == CentreMid(g, size, x, h, rnd, randomInt, calls0, a, b)
    requires g' == g[Mid(a, x, h) := g[Mid(a, x, h)][Mid(b, x, h) := c]]
    ensures PassShape(g', size, x, h)
    ensures CentreProgress(g0, g', size, x, h, rnd, randomInt, calls0, a, b + 1)
  {
    CentreReads(g0, g, size, x, h, rnd, randomInt, calls0, a, b);
    forall n, m | 0 <= n < h && 0 <= m < h && Earlier(n, m, a, b + 1)
      ensures g'[Mid(n, x, h)][Mid(m, x, h)] == CentreMid(g0, size, x, h, rnd, randomInt, calls0, n, m)
    {
      CentreValueAt(g0, g, g', size, x, h, rnd, randomInt, calls0, a, b, c, n, m);
    }
    CentreFrame(g0, g, g', size, x, h, a, b, c);
  }

  /** The cells a step reads are not written by the second loop. */
  lemma CentreReads(g0: Grid, g: Grid, size: nat, x: nat, h: nat, rnd: real, randomInt: nat -> real, calls0: nat, a: nat, b: nat)
    requires PassShape(g0, size, x, h) && PassShape(g, size, x, h)
    requires a < h && b < h
    requires forall i, j :: 0 <= i <= size && 0 <= j <= size && !CentreDone(i, j, x, a, b) ==> g[i][j] == g0[i][j]
    ensures CentreMid(g, size, x, h, rnd, randomInt, calls0, a, b) == CentreMid(g0, size, x, h, rnd, randomInt, calls0, a, b)
  {
    Positions(a, x, h);
    Positions(a + 1, x, h);
    Positions(b, x, h);
    Positions(b + 1, x, h);
  }

  /** After a step every centre up to it holds its value. */
  lemma CentreValueAt(g0: Grid, g: Grid, g': Grid, size: nat, x: nat, h: nat, rnd: real, randomInt: nat -> real,
                      calls0: nat, a: nat, b: nat, c: real, n: nat, m: nat)
    requires PassShape(g0, size, x, h) && PassShape(g, size, x, h)
    requires a < h && b < h && n < h && m < h && Earlier(n, m, a, b + 1)
    requires CentreProgress(g0, g, size, x, h, rnd, randomInt, calls0, a, b)
    requires c == CentreMid(g0, size, x, h, rnd, randomInt, calls0, a, b)
    requires g' == g[Mid(a, x, h) := g[Mid(a, x, h)][Mid(b, x, h) := c]]
    ensures g'[Mid(n, x, h)][Mid(m, x, h)] == CentreMid(g0, size, x, h, rnd, randomInt, calls0, n, m)
  {
    Positions(a, x, h);
    Positions(b, x, h);
    Positions(n, x, h);
    Positions(m, x, h);
  }

  /** A step writes no cell outside the step. */
  lemma CentreFrame(g0: Grid, g: Grid, g': Grid, size: nat, x: nat, h: nat, a: nat, b: nat, c: real)
    requires PassShape(g0, size, x, h) && PassShape(g, size, x, h)
    requires a < h && b < h
    requires forall i, j :: 0 <= i <= size && 0 <= j <= size && !CentreDone(i, j, x, a, b) ==> g[i][j] == g0[i][j]
    requires g' == g[Mid(a, x, h) := g[Mid(a, x, h)][Mid(b, x, h) := c]]
    ensures IsGrid(g', size + 1)
    ensures forall i, j :: 0 <= i <= size && 0 <= j <= size && !CentreDone(i, j, x, a, b + 1) ==> g'[i][j] == g0[i][j]
  {
    Positions(a, x, h);
    Positions(b, x, h);
  }

  /** After the inner loop the whole row `a` is done. */
  lemma CentreLineDone(g0: Grid, g: Grid, size: nat, x: nat, h: nat, rnd: real, randomInt: nat -> real, calls0: nat, a: nat)
    requires PassShape(g0, size, x, h) && PassShape(g, size, x, h)
    requires CentreProgress(g0, g, size, x, h, rnd, randomInt, calls0, a, h)
    ensures CentreProgress(g0, g, size, x, h, rnd, randomInt, calls0, a + 1, 0)
  {
    forall i, j | 0 <= i <= size && 0 <= j <= size && !CentreDone(i, j, x, a + 1, 0)
      ensures !CentreDone(i, j, x, a, h)
    {
      if Odd(j, x) {
        OddIsMid(j, x, h);
      }
    }
  }

  /**
   * The second loop of a pass (`for n ... for m ...`): it writes exactly the
   * centres, each from the four edge midpoints around it, and calls
   * `random()` once per step.
   */
  method CentrePass(g: Grid, size: nat, t: nat, x: nat, rnd: real, randomInt: nat -> real, calls: nat)
    returns (g': Grid, calls': nat)
    requires t % 2 == 1 && PassShape(g, size, x, (t + 1) / 2)
    ensures PassShape(g', size, x, (t + 1) / 2)
    ensures CentreUpdated(g, g', size, x, (t + 1) / 2, rnd, randomInt, calls)
    ensures calls' == calls + ((t + 1) / 2) * ((t + 1) / 2)
  {
    ghost var h := (t + 1) / 2;
    g', calls' := g, calls;
    var n := 1;
    ghost var a := 0;
    while n <= t
      invariant n == 2 * a + 1 && a <= h
      invariant PassShape(g', size, x, h)
      invariant CentreProgress(g, g', size, x, h, rnd, randomInt, calls, a, 0)
      invariant calls' == calls + a * h
    {
      g', calls' := CentreLine(g, g', size, t, x, n, rnd, randomInt, calls, calls', a);
      SuccMul(a, h);
      n := n + 2;
      a := a + 1;
    }
  }

  /** The final loop: every negative height becomes 0 and every other height is kept. */
  method Clamp(g: Grid, size: nat) returns (g': Grid)
    requires IsGrid(g, size + 1)
    ensures IsGrid(g', size + 1)
    ensures forall i, j :: 0 <= i <= size && 0 <= j <= size ==> g'[i][j] >= 0.0
    ensures forall i, j :: 0 <= i <= size && 0 <= j <= size && g[i][j] >= 0.0 ==> g'[i][j] == g[i][j]
    ensures forall i, j :: 0 <= i <= size && 0 <= j <= size && g[i][j] < 0.0 ==> g'[i][j] == 0.0
  {
    g' := g;
    var w := 0;
    while w <= size
      invariant 0 <= w <= size + 1
      invariant IsGrid(g', size + 1)
      invariant forall i, j :: 0 <= i < w && 0 <= j <= size ==> g'[i][j] == Clamped(g[i][j])
      invariant forall i :: w <= i <= size ==> g'[i] == g[i]
    {
      var z := 0;
      while z <= size
        invariant 0 <= z <= size + 1
        invariant IsGrid(g', size + 1)
        invariant forall i, j :: 0 <= i < w && 0 <= j <= size ==> g'[i][j] == Clamped(g[i][j])
        invariant forall i :: w < i <= size ==> g'[i] == g[i]
        invariant forall j :: 0 <= j < z ==> g'[w][j] == Clamped(g[w][j])
        invariant forall j :: z <= j <= size ==> g'[w][j] == g[w][j]
      {
        if g'[w][z] < 0.0 {
          g' := g'[w := g'[w][z := 0.0]];
        }
        z := z + 1;
      }
      w := w + 1;
    }
  }

  /** A height after the clamp. */
  function Clamped(height: real): real {
    if height < 0.0 then 0.0 else height
  }

  /** The number of passes, `N.toString(2).length - 1`. */
  function PassCount(size: nat): nat {
    BinaryDigits(size) - 1
  }

  /** The cell size `x` during pass `s` (counted from 1): `N / 2^s`. */
  function CellSize(size: nat, s: nat): nat
    requires s <= PassCount(size)
  {
    Pow2(PassCount(size) - s)
  }

  /** The randomness during pass `s`: halved after every pass. */
  function PassRandomness(randomness: real, s: nat): real
    requires s >= 1
  {
    randomness / Pow2(s - 1) as real
  }

  /** The `randomInt()` calls made before pass `s`. Pass `p` has `h = 2^(p-1)` odd multiples per side. */
  function CallsBefore(s: nat): nat {
    if s <= 1 then 0 else CallsBefore(s - 1) + PassCalls(Pow2(s - 2))
  }

  /** During pass `s` of a power-of-two size, `h = 2^(s-1)` and `x = N / 2^s` satisfy `N = h * 2x`. */
  lemma PassScale(size: nat, s: nat)
    requires IsPowerOfTwo(size) && 1 <= s <= PassCount(size)
    ensures size == Pow2(s - 1) * (2 * CellSize(size, s))
  {
    PowerOfTwoDigits(size);
    Pow2Add(s, PassCount(size) - s);
    MulAssoc2(Pow2(s - 1), Pow2(PassCount(size) - s));
  }

  lemma MulAssoc2(a: nat, b: nat)
    ensures a * (2 * b) == (2 * a) * b
  {
  }

  /** Pass `s` of `_createTerrain` takes `before` to `after`. */
  predicate NthPass(before: Grid, after: Grid, size: nat, randomness: real, randomInt: nat -> real, s: nat)
    requires IsPowerOfTwo(size) && 1 <= s <= PassCount(size)
    requires IsGrid(before, size + 1) && IsGrid(after, size + 1)
  {
    PassScale(size, s);
    PassUpdated(before, after, size, CellSize(size, s), Pow2(s - 1), PassRandomness(randomness, s), randomInt, CallsBefore(s))
  }

  /**
   * Midpoint displacement as `_createTerrain` does it: `passes[0]` is the
   * zero grid, pass `s` takes `passes[s - 1]` to `passes[s]`, and the
   * heightmap is the last of them with negative heights clamped to 0.
   */
  predicate Displaced(size: nat, randomness: real, randomInt: nat -> real, passes: seq<Grid>, terrain: Grid)
    requires size == 0 || IsPowerOfTwo(size)
  {
    && |passes| == PassCount(size) + 1
    && passes[0] == ZeroGrid(size + 1)
    && (forall s :: 0 <= s < |passes| ==> IsGrid(passes[s], size + 1))
    && (forall s :: 1 <= s < |passes| ==> NthPass(passes[s - 1], passes[s], size, randomness, randomInt, s))
    && IsGrid(terrain, size + 1)
    && (forall i, j :: 0 <= i <= size && 0 <= j <= size ==> terrain[i][j] == Clamped(passes[|passes| - 1][i][j]))
  }

  /**
   * `_createTerrain()` on a grid of `N + 1` by `N + 1` cells. A size that is
   * not 0 or a power of two throws. Otherwise `passes` are the grids after
   * each of the `N.toString(2).length - 1` passes and the result is
   * `Displaced` over them: its corners stay 0, every height is non-negative,
   * and with no randomness every height is 0.
   */
  method CreateTerrain(size: nat, randomness: real, randomInt: nat -> real)
    returns (r: Result<Grid, TerrainError>, ghost passes: seq<Grid>)
    ensures r.Err? <==> !(size == 0 || IsPowerOfTwo(size))
    ensures r.Err? ==> size % Pow2(BinaryDigits(size) - 1) != 0
    ensures r.Ok? ==> Displaced(size, randomness, randomInt, passes, r.value)
    ensures r.Ok? ==> IsGrid(r.value, size + 1)
    ensures r.Ok? ==> r.value[0][0] == 0.0 && r.value[0][size] == 0.0
    ensures r.Ok? ==> r.value[size][0] == 0.0 && r.value[size][size] == 0.0
    ensures r.Ok? ==> forall i, j :: 0 <= i <= size && 0 <= j <= size ==> r.value[i][j] >= 0.0
    ensures r.Ok? && randomness == 0.0 ==> Flat(r.value, size + 1)
  {
    if !(size == 0 || IsPowerOfTwo(size)) {
      FractionalLastPass(size);
      return Err(FractionalIndex), [];
    }
    var terrain := ZeroGrid(size + 1);
    var nbits := BinaryDigits(size) - 1;
    if size > 0 {
      PowerOfTwoDigits(size);
    } else {
      assert nbits == 0;
    }
    passes := [terrain];
    var calls := 0;
    var rnd := randomness;
    var t := 1;
    var x := size / 2;
    var s := 1;
    while s <= nbits
      invariant 1 <= s <= nbits + 1
      invariant size > 0 ==> size == Pow2(nbits)
      invariant s <= nbits ==> t + 1 == Pow2(s) && x == CellSize(size, s)
      invariant rnd == PassRandomness(randomness, s)
      invariant calls == CallsBefore(s)
      invariant |passes| == s && passes[0] == ZeroGrid(size + 1) && passes[s - 1] == terrain
      invariant forall p :: 0 <= p < s ==> IsGrid(passes[p], size + 1)
      invariant forall p :: 1 <= p < s ==> NthPass(passes[p - 1], passes[p], size, randomness, randomInt, p)
    {
      terrain, calls := RunPass(terrain, size, s, t, x, rnd, randomInt, calls, randomness);
      ExtendPasses(size, randomness, randomInt, passes, terrain);
      passes := passes + [terrain];
      NextPass(size, s, randomness);
      t := 2 * t + 1;
      x := x / 2;
      rnd := rnd / 2.0;
      s := s + 1;
    }
    var clamped := Clamp(terrain, size);
    r := Ok(clamped);
    DisplacedShape(size, randomness, randomInt, passes, clamped);
  }

  /** Appending pass `|passes|` keeps every earlier pass and its step. */
  lemma ExtendPasses(size: nat, randomness: real, randomInt: nat -> real, passes: seq<Grid>, g: Grid)
    requires IsPowerOfTwo(size) && 1 <= |passes| <= PassCount(size)
    requires forall p :: 0 <= p < |passes| ==> IsGrid(passes[p], size + 1)
    requires forall p :: 1 <= p < |passes| ==> NthPass(passes[p - 1], passes[p], size, randomness, randomInt, p)
    requires IsGrid(g, size + 1) && NthPass(passes[|passes| - 1], g, size, randomness, randomInt, |passes|)
    ensures forall p :: 0 <= p < |passes| + 1 ==> IsGrid((passes + [g])[p], size + 1)
    ensures forall p :: 1 <= p < |passes| + 1 ==>
      NthPass((passes + [g])[p - 1], (passes + [g])[p], size, randomness, randomInt, p)
  {
    var ps := passes + [g];
    forall p | 1 <= p < |passes| + 1
      ensures NthPass(ps[p - 1], ps[p], size, randomness, randomInt, p)
    {
      if p < |passes| {
        assert ps[p - 1] == passes[p - 1] && ps[p] == passes[p];
      } else {
        assert ps[p - 1] == passes[|passes| - 1] && ps[p] == g;
      }
    }
  }

  /**
   * One pass of the loop over `t`: the first loop and then the second, which
   * together make `NthPass`, with the calls counted on to `CallsBefore(s + 1)`.
   */
  method RunPass(g: Grid, size: nat, s: nat, t: nat, x: nat, rnd: real, randomInt: nat -> real, calls: nat, ghost randomness: real)
    returns (g': Grid, calls': nat)
    requires IsPowerOfTwo(size) && 1 <= s <= PassCount(size) && IsGrid(g, size + 1)
    requires t + 1 == Pow2(s) && x == CellSize(size, s)
    requires rnd == PassRandomness(randomness, s) && calls == CallsBefore(s)
    ensures IsGrid(g', size + 1)
    ensures NthPass(g, g', size, randomness, randomInt, s)
    ensures calls' == CallsBefore(s + 1)
  {
    PassArgs(size, s, t, x);
    var edged, mid;
    edged, mid := EdgePass(g, size, t, x, rnd, randomInt, calls);
    g', calls' := CentrePass(edged, size, t, x, rnd, randomInt, mid);
    CombinePass(g, edged, g', size, x, (t + 1) / 2, rnd, randomInt, calls);
    PassIsNth(g, g', size, s, (t + 1) / 2, x, rnd, randomInt, calls, randomness);
  }

  /** The loop's `t` and `x` during pass `s`: `h = (t + 1) / 2` odd multiples per side and the calls of the pass. */
  lemma PassArgs(size: nat, s: nat, t: nat, x: nat)
    requires IsPowerOfTwo(size) && 1 <= s <= PassCount(size)
    requires t + 1 == Pow2(s) && x == CellSize(size, s)
    ensures t % 2 == 1 && (t + 1) / 2 == Pow2(s - 1)
    ensures x >= 1 && size == (t + 1) / 2 * (2 * x)
    ensures CallsBefore(s) + EdgeCalls((t + 1) / 2) + (t + 1) / 2 * ((t + 1) / 2) == CallsBefore(s + 1)
  {
    PassScale(size, s);
    assert (t + 1) / 2 == Pow2(s - 1);
  }

  /** A pass with the loop's `h`, `x`, randomness and call count is pass `s`. */
  lemma PassIsNth(g: Grid, g': Grid, size: nat, s: nat, h: nat, x: nat, rnd: real, randomInt: nat -> real, calls: nat, randomness: real)
    requires IsPowerOfTwo(size) && 1 <= s <= PassCount(size)
    requires h == Pow2(s - 1) && x == CellSize(size, s)
    requires rnd == PassRandomness(randomness, s) && calls == CallsBefore(s)
    requires PassShape(g, size, x, h) && PassShape(g', size, x, h)
    requires PassUpdated(g, g', size, x, h, rnd, randomInt, calls)
    ensures NthPass(g, g', size, randomness, randomInt, s)
  {
  }

  /** From pass `s` to pass `s + 1`: `t := 2t + 1`, `x /= 2`, the randomness halves and the pass's calls are counted. */
  lemma NextPass(size: nat, s: nat, randomness: real)
    requires IsPowerOfTwo(size) && 1 <= s <= PassCount(size)
    ensures 2 * (Pow2(s) - 1) + 1 + 1 == Pow2(s + 1)
    ensures s < PassCount(size) ==> CellSize(size, s) / 2 == CellSize(size, s + 1)
    ensures PassRandomness(randomness, s) / 2.0 == PassRandomness(randomness, s + 1)
    ensures CallsBefore(s) + PassCalls(Pow2(s - 1)) == CallsBefore(s + 1)
  {
    assert Pow2(s) as real == 2.0 * Pow2(s - 1) as real;
    HalveQuotient(randomness, Pow2(s - 1) as real);
  }

  lemma HalveQuotient(r: real, p: real)
    requires p > 0.0
    ensures r / p / 2.0 == r / (2.0 * p)
  {
  }

  /** The corners, the sign and the flatness of a `Displaced` heightmap. */
  lemma DisplacedShape(size: nat, randomness: real, randomInt: nat -> real, passes: seq<Grid>, terrain: Grid)
    requires size == 0 || IsPowerOfTwo(size)
    requires Displaced(size, randomness, randomInt, passes, terrain)
    ensures terrain[0][0] == 0.0 && terrain[0][size] == 0.0
    ensures terrain[size][0] == 0.0 && terrain[size][size] == 0.0
    ensures forall i, j :: 0 <= i <= size && 0 <= j <= size ==> terrain[i][j] >= 0.0
    ensures randomness == 0.0 ==> Flat(terrain, size + 1)
  {
    CornersStayZero(size, randomness, randomInt, passes, |passes| - 1);
    if randomness == 0.0 {
      StaysFlat(size, randomness, randomInt, passes, |passes| - 1);
    }
  }

  /** No pass writes a corner. */
  lemma {:induction false} CornersStayZero(size: nat, randomness: real, randomInt: nat -> real, passes: seq<Grid>, s: nat)
    requires size == 0 || IsPowerOfTwo(size)
    requires |passes| == PassCount(size) + 1 && passes[0] == ZeroGrid(size + 1)
    requires forall p :: 0 <= p < |passes| ==> IsGrid(passes[p], size + 1)
    requires forall p :: 1 <= p < |passes| ==> NthPass(passes[p - 1], passes[p], size, randomness, randomInt, p)
    requires s < |passes|
    ensures IsGrid(passes[s], size + 1)
    ensures passes[s][0][0] == 0.0 && passes[s][0][size] == 0.0
    ensures passes[s][size][0] == 0.0 && passes[s][size][size] == 0.0
  {
    if s > 0 {
      CornersStayZero(size, randomness, randomInt, passes, s - 1);
      PassScale(size, s);
      EndsOn(CellSize(size, s), Pow2(s - 1));
    }
  }

  /** With no randomness every pass keeps the grid flat. */
  lemma {:induction false} StaysFlat(size: nat, randomness: real, randomInt: nat -> real, passes: seq<Grid>, s: nat)
    requires size == 0 || IsPowerOfTwo(size)
    requires randomness == 0.0
    requires |passes| == PassCount(size) + 1 && passes[0] == ZeroGrid(size + 1)
    requires forall p :: 0 <= p < |passes| ==> IsGrid(passes[p], size + 1)
    requires forall p :: 1 <= p < |passes| ==> NthPass(passes[p - 1], passes[p], size, randomness, randomInt, p)
    requires s < |passes|
    ensures Flat(passes[s], size + 1)
  {
    if s > 0 {
      StaysFlat(size, randomness, randomInt, passes, s - 1);
      PassScale(size, s);
      PassFlat(passes[s - 1], passes[s], size, CellSize(size, s), Pow2(s - 1), randomInt, CallsBefore(s));
    }
  }

  /** A pass with no randomness takes a flat grid to a flat grid. */
  lemma PassFlat(before: Grid, after: Grid, size: nat, x: nat, h: nat, randomInt: nat -> real, calls: nat)
    requires PassShape(before, size, x, h) && PassShape(after, size, x, h)
    requires Flat(before, size + 1)
    requires PassUpdated(before, after, size, x, h, 0.0, randomInt, calls)
    ensures Flat(after, size + 1)
  {
    forall iv, k | 0 <= iv <= h && 0 <= k < h
      ensures after[Mid(k, x, h)][Even(iv, x, h)] == 0.0 && after[Even(iv, x, h)][Mid(k, x, h)] == 0.0
    {
    }
    forall a, b | 0 <= a < h && 0 <= b < h
      ensures after[Mid(a, x, h)][Mid(b, x, h)] == 0.0
    {
      assert after[Even(a + 1, x, h)][Mid(b, x, h)] == 0.0 && after[Even(a, x, h)][Mid(b, x, h)] == 0.0;
      assert after[Mid(a, x, h)][Even(b + 1, x, h)] == 0.0 && after[Mid(a, x, h)][Even(b, x, h)] == 0.0;
    }
    forall i, j | 0 <= i <= size && 0 <= j <= size
      ensures after[i][j] == 0.0
    {
      Classify(i, x, h);
      Classify(j, x, h);
    }
  }

  /** A coordinate of a pass is an odd multiple `Mid(k)`, a multiple `Even(k)` of `2x`, or neither. */
  lemma Classify(i: nat, x: nat, h: nat)
    requires x >= 1 && i <= h * (2 * x)
    ensures Odd(i, x) ==> Lat(i, x) < h && i == Mid(Lat(i, x), x, h)
    ensures On(i, x) ==> Lat(i, x) <= h && i == Even(Lat(i, x), x, h)
  {
    if Odd(i, x) {
      OddIsMid(i, x, h);
    }
    if On(i, x) {
      OnIsEven(i, x, h);
    }
  }


  /** `PassUpdated` fixes the grid after a pass: every cell is an edge midpoint, a centre or kept. */
  lemma PassUnique(before: Grid, a1: Grid, a2: Grid, size: nat, x: nat, h: nat, rnd: real, randomInt: nat -> real, calls: nat)
    requires PassShape(before, size, x, h) && PassShape(a1, size, x, h) && PassShape(a2, size, x, h)
    requires PassUpdated(before, a1, size, x, h, rnd, randomInt, calls)
    requires PassUpdated(before, a2, size, x, h, rnd, randomInt, calls)
    ensures a1 == a2
  {
    forall iv, k | 0 <= iv <= h && 0 <= k < h
      ensures a1[Mid(k, x, h)][Even(iv, x, h)] == a2[Mid(k, x, h)][Even(iv, x, h)]
      ensures a1[Even(iv, x, h)][Mid(k, x, h)] == a2[Even(iv, x, h)][Mid(k, x, h)]
    {
    }
    forall a, b | 0 <= a < h && 0 <= b < h
      ensures a1[Mid(a, x, h)][Mid(b, x, h)] == a2[Mid(a, x, h)][Mid(b, x, h)]
    {
      assert a1[Even(a + 1, x, h)][Mid(b, x, h)] == a2[Even(a + 1, x, h)][Mid(b, x, h)];
      assert a1[Even(a, x, h)][Mid(b, x, h)] == a2[Even(a, x, h)][Mid(b, x, h)];
      assert a1[Mid(a, x, h)][Even(b + 1, x, h)] == a2[Mid(a, x, h)][Even(b + 1, x, h)];
      assert a1[Mid(a, x, h)][Even(b, x, h)] == a2[Mid(a, x, h)][Even(b, x, h)];
    }
    forall i | 0 <= i <= size
      ensures a1[i] == a2[i]
    {
      forall j | 0 <= j <= size
        ensures a1[i][j] == a2[i][j]
      {
        Classify(i, x, h);
        Classify(j, x, h);
      }
    }
  }

  /** `Displaced` fixes the passes and the heightmap: `_createTerrain` has one result for given calls of `randomInt()`. */
  lemma DisplacedUnique(size: nat, randomness: real, randomInt: nat -> real,
                        passes1: seq<Grid>, terrain1: Grid, passes2: seq<Grid>, terrain2: Grid)
    requires size == 0 || IsPowerOfTwo(size)
    requires Displaced(size, randomness, randomInt, passes1, terrain1)
    requires Displaced(size, randomness, randomInt, passes2, terrain2)
    ensures passes1 == passes2 && terrain1 == terrain2
  {
    forall s | 0 <= s < |passes1|
      ensures passes1[s] == passes2[s]
    {
      SamePass(size, randomness, randomInt, passes1, terrain1, passes2, terrain2, s);
    }
    forall i | 0 <= i <= size
      ensures terrain1[i] == terrain2[i]
    {
    }
  }

  lemma {:induction false} SamePass(size: nat, randomness: real, randomInt: nat -> real,
                                    passes1: seq<Grid>, terrain1: Grid, passes2: seq<Grid>, terrain2: Grid, s: nat)
    requires size == 0 || IsPowerOfTwo(size)
    requires Displaced(size, randomness, randomInt, passes1, terrain1)
    requires Displaced(size, randomness, randomInt, passes2, terrain2)
    requires s < |passes1|
    ensures passes1[s] == passes2[s]
  {
    if s > 0 {
      SamePass(size, randomness, randomInt, passes1, terrain1, passes2, terrain2, s - 1);
      assert NthPass(passes1[s - 1], passes1[s], size, randomness, randomInt, s);
      assert NthPass(passes2[s - 1], passes2[s], size, randomness, randomInt, s);
      PassScale(size, s);
      PassUnique(passes1[s - 1], passes1[s], passes2[s], size, CellSize(size, s), Pow2(s - 1),
                 PassRandomness(randomness, s), randomInt, CallsBefore(s));
    }
  }
}
