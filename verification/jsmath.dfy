/**
 * The arithmetic of the JavaScript runtime that the sketches rely on, over
 * unbounded reals: truncation, the truncating remainder `%`, `Math.round`,
 * the `| 0` (ToInt32) conversion, and an abstract `Math` library.
 */
module JsMath {

  /** Rounds toward zero, as JavaScript's `%` and `Math.trunc` do. */
  function Trunc(x: real): (r: int)
    ensures 0.0 <= x ==> r as real <= x < r as real + 1.0
    ensures x < 0.0 ==> r as real - 1.0 < x <= r as real
  {
    if x >= 0.0 then x.Floor else -((-x).Floor)
  }

  /** JavaScript `x % d`: the remainder takes the sign of the dividend. */
  function Rem(x: real, d: real): (r: real)
    requires d > 0.0
    ensures 0.0 <= x ==> 0.0 <= r < d
    ensures x < 0.0 ==> -d < r <= 0.0
    ensures (x - r) / d == Trunc(x / d) as real
  {
    RemBounds(x, d);
    x - d * Trunc(x / d) as real
  }

  lemma RemBounds(x: real, d: real)
    requires d > 0.0
    ensures 0.0 <= x ==> 0.0 <= x - d * Trunc(x / d) as real < d
    ensures x < 0.0 ==> -d < x - d * Trunc(x / d) as real <= 0.0
  {
    var t := Trunc(x / d) as real;
    if 0.0 <= x {
      assert 0.0 <= x / d;
      DivLe(x, d, t);
      DivLtUpper(x, d, t + 1.0);
      assert d * (t + 1.0) == d * t + d;
    } else {
      assert x / d < 0.0;
      DivGe(x, d, t);
      DivGtLower(x, d, t - 1.0);
      assert d * (t - 1.0) == d * t - d;
    }
  }

  lemma DivLe(x: real, d: real, s: real)
    requires d > 0.0 && s <= x / d
    ensures d * s <= x
  {
  }

  lemma DivGe(x: real, d: real, s: real)
    requires d > 0.0 && x / d <= s
    ensures x <= d * s
  {
  }

  lemma DivLtUpper(x: real, d: real, s: real)
    requires d > 0.0 && x / d < s
    ensures x < d * s
  {
  }

  lemma DivGtLower(x: real, d: real, s: real)
    requires d > 0.0 && s < x / d
    ensures d * s < x
  {
  }

  /** `Math.round(x)`: rounds to the nearest integer, halves toward +infinity. */
  function Round(x: real): (r: int)
    ensures x - 0.5 < r as real <= x + 0.5
  {
    (x + 0.5).Floor
  }

  const TwoTo32: int := 0x1_0000_0000
  const TwoTo31: int := 0x8000_0000

  /** The `x | 0` conversion: truncate, then wrap into a signed 32-bit integer. */
  function ToInt32(x: real): (r: int)
    ensures -TwoTo31 <= r < TwoTo31
    ensures -TwoTo31 <= Trunc(x) < TwoTo31 ==> r == Trunc(x)
  {
    var m := Trunc(x) % TwoTo32;
    if m >= TwoTo31 then m - TwoTo32 else m
  }

  /** True when the real `x` is a whole number. */
  predicate IsIntegral(x: real) {
    x == x.Floor as real
  }

  lemma FractionAtMostOne(x: real, d: real)
    requires 0.0 <= x <= d && d > 0.0
    ensures 0.0 <= x / d <= 1.0
  {
  }

  lemma SelfDiv(d: real)
    requires d != 0.0
    ensures d / d == 1.0
  {
  }

  lemma MulDiv(x: real, y: real, d: real)
    requires d != 0.0
    ensures x * y / d == (x / d) * y
  {
  }

  lemma ScaleFraction(t: real, w: real)
    requires 0.0 <= t <= 1.0 && 0.0 <= w
    ensures 0.0 <= t * w <= w
  {
  }

  lemma RealLtInt(a: int, b: int)
    requires (a as real) < (b as real) + 1.0
    ensures a <= b
  {
  }

  /** Rounding a whole number gives it back. */
  lemma RoundIntegral(x: real)
    requires IsIntegral(x)
    ensures Round(x) == x.Floor
  {
    var n := x.Floor;
    var m := Round(x);
    RealLtInt(m, n);
    RealLtInt(n, m);
  }

  /** A whole number shifted by an integer is a whole number. */
  lemma IntegralShift(x: real, k: int)
    requires IsIntegral(x)
    ensures IsIntegral(x + k as real)
  {
    var n := x.Floor;
    var y := x + k as real;
    assert y == (n + k) as real;
    var m := y.Floor;
    RealLtInt(m, n + k);
    RealLtInt(n + k, m);
  }

  /** Rounding a value in `[0, n]` stays in `[0, n]`. */
  lemma RoundWithin(x: real, n: int)
    requires 0.0 <= x <= n as real
    ensures 0 <= Round(x) <= n
  {
    var k := Round(x);
    RealLtInt(0, k);
    RealLtInt(k, n);
  }

  /**
   * `Math.sin`, `Math.cos`, `Math.sqrt`, `Math.log` and `Math.PI`. Nothing
   * is known about them except what `Lawful` states.
   */
  datatype MathLib = MathLib(
    sin: real -> real,
    cos: real -> real,
    sqrt: real -> real,
    log: real -> real,
    pi: real)

  /** The only facts about the transcendental functions that the model uses. */
  predicate Lawful(ml: MathLib) {
    ml.sin(0.0) == 0.0 && ml.cos(0.0) == 1.0
  }
}
