/**
 * The seeded pseudo-random generator shared by every sketch
 * (`RandomNumberGenerator`). It follows the Park–Miller "minimal standard"
 * Lehmer generator with Schrage's constants, but divides `seed / q` with real
 * division, so the state need not stay an integer (a draw from a state that
 * `q` divides does give an integer).
 * The state is threaded explicitly: every draw returns the value together
 * with the successor generator.
 */
module Rng {
  import opened Wrappers
  import opened JsMath

  const A: real := 16807.0
  const M: real := 2147483647.0
  const Q: real := 127773.0
  const R: real := 2836.0

  /** JavaScript's `Number.MAX_VALUE`, (2^53 - 1) * 2^971, written out exactly. */
  const MaxValue: real := 179769313486231570814527423731704356798070567525844996598917476803157260780028538760589558632766878171540458953514382464234321326889464182768467546703537516986049910576551282076245490090389328944075868508455133942304583236903222948165808559332123348274797826204144723168738177180919299881250404026184124858368.0

  datatype Generator = Generator(seed: real)

  datatype RngError = SeedOutOfRange

  /** The state invariant every draw preserves. */
  predicate InRange(g: Generator) {
    0.0 < g.seed <= M
  }

  /**
   * The constructor as written: it throws for `seed <= 0` or for a seed equal
   * to `Number.MAX_VALUE`, and accepts every other seed, including those above M.
   */
  function Create(seed: real): (r: Result<Generator, RngError>)
    ensures r.Err? <==> seed <= 0.0 || seed == MaxValue
    ensures r.Ok? ==> r.value.seed == seed
  {
    if seed <= 0.0 || seed == MaxValue then Err(SeedOutOfRange) else Ok(Generator(seed))
  }

  /**
   * The guard the constructor evidently intends (it mirrors the `seed ==
   * int.MaxValue` test of the generator's usual 32-bit form, where that
   * maximum is M itself): reject every seed outside `(0, M)`. Every generator
   * it accepts satisfies the draw invariant.
   */
  function CreateBounded(seed: real): (r: Result<Generator, RngError>)
    ensures r.Ok? <==> 0.0 < seed < M
    ensures r.Ok? ==> r.value.seed == seed && InRange(r.value)
  {
    if seed <= 0.0 || seed >= M then Err(SeedOutOfRange) else Ok(Generator(seed))
  }

  /** The value `a * lo - r * hi` before the `<= 0` correction. */
  function PreWrap(seed: real): real {
    A * Rem(seed, Q) - R * (seed / Q)
  }

  /** `nextDouble()`: one step of the recurrence, returning the draw and the new state. */
  function NextDouble(g: Generator): (r: (real, Generator))
    ensures r.0 == r.1.seed / M
    ensures InRange(g) ==> InRange(r.1) && 0.0 < r.0 <= 1.0
    ensures InRange(g) ==> (r.0 == 1.0 <==> PreWrap(g.seed) == 0.0)
    ensures g.seed == 0.0 ==> r.0 == 1.0
  {
    var next := PreWrap(g.seed);
    var seed' := if next <= 0.0 then next + M else next;
    PreWrapBounds(g.seed);
    (seed' / M, Generator(seed'))
  }

  /** For `0 < seed <= M` the uncorrected value lies strictly between `-M` and `M`. */
  lemma PreWrapBounds(seed: real)
    ensures 0.0 < seed <= M ==> -M < PreWrap(seed) < M
    ensures seed == 0.0 ==> PreWrap(seed) == 0.0
  {
    if 0.0 < seed <= M {
      var lo := Rem(seed, Q);
      assert 0.0 <= lo < Q;
      assert A * lo < A * Q;
      assert A * Q == M - R;
      assert seed / Q <= M / Q;
    }
  }

  /** The state after `n` draws. */
  function Advance(g: Generator, n: nat): (r: Generator)
    ensures InRange(g) ==> InRange(r)
    decreases n
  {
    if n == 0 then g else Advance(NextDouble(g).1, n - 1)
  }

  /** The first `n` values of `nextDouble()`, in order. */
  function Draws(g: Generator, n: nat): (r: seq<real>)
    ensures |r| == n
    ensures InRange(g) ==> forall i :: 0 <= i < n ==> 0.0 < r[i] <= 1.0
    decreases n
  {
    if n == 0 then [] else [NextDouble(g).0] + Draws(NextDouble(g).1, n - 1)
  }

  /** The `k`-th value drawn (counting from 0). */
  function NthDraw(g: Generator, k: nat): real {
    NextDouble(Advance(g, k)).0
  }

  /**
   * The stream can be resumed: the first `n + k` draws are the first `n`
   * followed by the first `k` of the generator left after `n` draws.
   */
  lemma {:induction false} DrawsResume(g: Generator, n: nat, k: nat)
    ensures Draws(g, n + k) == Draws(g, n) + Draws(Advance(g, n), k)
    ensures forall i :: 0 <= i < n + k ==> Draws(g, n + k)[i] == NthDraw(g, i)
    decreases n
  {
    if n == 0 {
      DrawsNth(g, k);
    } else {
      DrawsResume(NextDouble(g).1, n - 1, k);
      DrawsNth(g, n + k);
    }
  }

  lemma {:induction false} DrawsNth(g: Generator, n: nat)
    ensures forall i :: 0 <= i < n ==> Draws(g, n)[i] == NthDraw(g, i)
    decreases n
  {
    if n > 0 {
      DrawsNth(NextDouble(g).1, n - 1);
      forall i | 0 <= i < n
        ensures Draws(g, n)[i] == NthDraw(g, i)
      {
        if i > 0 {
          assert Draws(g, n)[i] == Draws(NextDouble(g).1, n - 1)[i - 1];
          assert Advance(g, i) == Advance(NextDouble(g).1, i - 1);
        }
      }
    }
  }

  /**
   * A seed above M passes the constructor guard, and its first draw leaves
   * the invariant: the state becomes negative and so does the value.
   */
  lemma LargeSeedEscapesBound()
    ensures Create(Q * 1000000.0).Ok?
    ensures NextDouble(Generator(Q * 1000000.0)).0 < 0.0
    ensures !InRange(NextDouble(Generator(Q * 1000000.0)).1)
  {
    var s := Q * 1000000.0;
    assert s / Q == 1000000.0;
    assert Trunc(s / Q) == 1000000;
    assert Rem(s, Q) == 0.0;
    assert PreWrap(s) == -R * 1000000.0;
  }

  /**
   * One iteration of `while (u === 0) u = this.nextDouble()`. A zero draw
   * leaves the state at 0, and the draw after that is exactly 1, so the loop
   * runs at most twice; inside the invariant it runs once.
   */
  function DrawNonZero(g: Generator): (r: (real, Generator))
    ensures r.0 != 0.0
    ensures InRange(g) ==> r == NextDouble(g)
    decreases if g.seed == 0.0 then 0 else 1
  {
    var (u, g1) := NextDouble(g);
    if u == 0.0 then
      assert g1.seed == 0.0;
      DrawNonZero(g1)
    else
      (u, g1)
  }

  /** Whatever the state, each `while (… === 0)` loop takes one or two draws. */
  lemma DrawNonZeroAtMostTwice(g: Generator)
    ensures DrawNonZero(g).1 == Advance(g, 1) || DrawNonZero(g).1 == Advance(g, 2)
  {
    var g1 := NextDouble(g).1;
    assert Advance(g, 1) == g1;
    assert Advance(g, 2) == Advance(g1, 1);
  }

  /** The Box–Muller expression of `randomNormal()` applied to the draws `u` and `v`. */
  function BoxMuller(ml: MathLib, u: real, v: real): real {
    ml.sqrt(-2.0 * ml.log(u)) * ml.cos(2.0 * ml.pi * v)
  }

  /** The state left by one `randomNormal()` call: two non-zero draws. */
  function NormalStep(g: Generator): (r: Generator)
    ensures InRange(g) ==> InRange(r)
  {
    DrawNonZero(DrawNonZero(g).1).1
  }

  /** Inside the invariant `randomNormal()` consumes exactly two draws. */
  lemma NormalStepTwoDraws(g: Generator)
    requires InRange(g)
    ensures NormalStep(g) == Advance(g, 2)
  {
    var g1 := NextDouble(g).1;
    assert Advance(g, 2) == Advance(g1, 1);
  }

  /**
   * `randomNormal()`: draws `u`, then `v`, each redrawn while zero, and
   * combines them with the Box–Muller expression. Inside the invariant it
   * consumes exactly two draws.
   */
  function RandomNormal(g: Generator, ml: MathLib): (r: (real, Generator))
    ensures r.1 == NormalStep(g)
  {
    var (u, g1) := DrawNonZero(g);
    var (v, g2) := DrawNonZero(g1);
    (BoxMuller(ml, u, v), g2)
  }

  /** Inside the invariant the sample is Box–Muller of the next two draws of the stream. */
  lemma RandomNormalValue(g: Generator, ml: MathLib)
    requires InRange(g)
    ensures RandomNormal(g, ml).0 == BoxMuller(ml, NthDraw(g, 0), NthDraw(g, 1))
  {
    assert Advance(g, 1) == NextDouble(g).1;
  }

  /** The state after `k` calls of `randomNormal()`. */
  function AdvanceNormals(g: Generator, k: nat): (r: Generator)
    ensures InRange(g) ==> InRange(r)
    decreases k
  {
    if k == 0 then g else AdvanceNormals(NormalStep(g), k - 1)
  }

  /** The value of the `k`-th call of `randomNormal()` (counting from 0). */
  function NormalAt(g: Generator, k: nat, ml: MathLib): real {
    RandomNormal(AdvanceNormals(g, k), ml).0
  }

  /**
   * Inside the invariant, skipping `a` normal samples and then `b` is
   * skipping `a + b`: both consume `2 * (a + b)` uniform draws.
   */
  lemma AdvanceNormalsAdd(g: Generator, a: nat, b: nat)
    requires InRange(g)
    ensures AdvanceNormals(AdvanceNormals(g, a), b) == AdvanceNormals(g, a + b)
  {
    NormalsConsumeTwoDraws(g, a);
    NormalsConsumeTwoDraws(AdvanceNormals(g, a), b);
    NormalsConsumeTwoDraws(g, a + b);
    AdvanceAdd(g, 2 * a, 2 * b);
  }

  /** The `b`-th sample after skipping `a` is the `(a + b)`-th sample. */
  lemma NormalAtShift(g: Generator, a: nat, b: nat, ml: MathLib)
    requires InRange(g)
    ensures NormalAt(AdvanceNormals(g, a), b, ml) == NormalAt(g, a + b, ml)
  {
    AdvanceNormalsAdd(g, a, b);
  }

  /** Inside the invariant, `k` normal samples consume exactly `2k` uniform draws. */
  lemma {:induction false} NormalsConsumeTwoDraws(g: Generator, k: nat)
    requires InRange(g)
    ensures AdvanceNormals(g, k) == Advance(g, 2 * k)
    decreases k
  {
    if k > 0 {
      NormalStepTwoDraws(g);
      NormalsConsumeTwoDraws(NormalStep(g), k - 1);
      AdvanceAdd(g, 2, 2 * (k - 1));
    }
  }

  lemma {:induction false} AdvanceAdd(g: Generator, n: nat, k: nat)
    ensures Advance(Advance(g, n), k) == Advance(g, n + k)
    decreases n
  {
    if n > 0 {
      AdvanceAdd(NextDouble(g).1, n - 1, k);
    }
  }

  /**
   * `nextInt(min, max)`: `min + round((round(max) - round(min)) * nextDouble())`.
   * For integral bounds with `min <= max` the result is an integer in `[min, max]`.
   */
  function NextInt(g: Generator, min: real, max: real): (r: (real, Generator))
    ensures r.1 == NextDouble(g).1
    ensures InRange(g) && IsIntegral(min) && IsIntegral(max) && min <= max ==>
      min <= r.0 <= max && IsIntegral(r.0)
  {
    var (d, g1) := NextDouble(g);
    var k := Round((Round(max) - Round(min)) as real * d);
    var v := min + k as real;
    if InRange(g) && IsIntegral(min) && IsIntegral(max) && min <= max then
      NextIntBounds(min, max, d);
      (v, g1)
    else
      (v, g1)
  }

  lemma NextIntBounds(min: real, max: real, d: real)
    requires IsIntegral(min) && IsIntegral(max) && min <= max && 0.0 < d <= 1.0
    ensures min <= min + Round((Round(max) - Round(min)) as real * d) as real <= max
    ensures IsIntegral(min + Round((Round(max) - Round(min)) as real * d) as real)
  {
    RoundIntegral(max);
    RoundIntegral(min);
    assert (Round(max) - Round(min)) as real == max - min;
    ScaleUnit((Round(max) - Round(min)) as real, d);
    RoundWithin((Round(max) - Round(min)) as real * d, Round(max) - Round(min));
    IntegralShift(min, Round((Round(max) - Round(min)) as real * d));
  }

  /** For `0 < d <= 1`, a non-negative `x` scaled by `d` stays within `[0, x]`. */
  lemma ScaleUnit(x: real, d: real)
    requires 0.0 <= x && 0.0 < d <= 1.0
    ensures 0.0 <= x * d <= x
  {
  }
}
