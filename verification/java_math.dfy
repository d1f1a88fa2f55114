/**
 * The few pieces of Java arithmetic the renderer relies on that do not exist
 * as such on Dafny's unbounded `int` and exact `real`: the 32-bit `int`
 * range, the `(int)` cast of a `double`, `Math.floor`, `Math.ceil`,
 * `Math.abs`, `Math.min`/`Math.max` clamping.
 */
module JavaMath {

  const IntMin: int := -0x8000_0000
  const IntMax: int := 0x7FFF_FFFF

  /** A Java `int`. */
  type Int32 = x: int | -0x8000_0000 <= x <= 0x7FFF_FFFF

  /** Truncation toward zero (not `.Floor`, which rounds toward minus infinity). */
  function Trunc(x: real): int {
    if x >= 0.0 then x.Floor else -((-x).Floor)
  }

  /**
   * Java's `(int) d`: truncation toward zero, saturating at the bounds of
   * `int` (NaN is outside this model).
   */
  function IntCast(x: real): (r: Int32)
    ensures 0.0 <= x && x < IntMax as real ==> r as real <= x < r as real + 1.0
    ensures IntMin as real < x && x < 0.0 ==> r as real - 1.0 < x <= r as real
    ensures x >= IntMax as real ==> r == IntMax
    ensures x <= IntMin as real ==> r == IntMin
  {
    if x >= IntMax as real then IntMax
    else if x <= IntMin as real then IntMin
    else Trunc(x)
  }

  /** `Math.floor`, whose result is a `double` holding an integer. */
  function Floor(x: real): real {
    x.Floor as real
  }

  /** `Math.ceil(x)` is `-floor(-x)`. */
  function Ceil(x: real): real {
    -((-x).Floor as real)
  }

  function Abs(x: real): real {
    if x < 0.0 then -x else x
  }

  /** `Math.min(Math.max(x, 0), 1)`. */
  function Clamp01(x: real): (r: real)
    ensures 0.0 <= r <= 1.0
    ensures 0.0 <= x <= 1.0 ==> r == x
  {
    if x < 0.0 then 0.0 else if x > 1.0 then 1.0 else x
  }

  /** The cast is monotone, so sorting by `y` survives the conversion to rows. */
  lemma IntCastMonotone(a: real, b: real)
    requires a <= b
    ensures IntCast(a) <= IntCast(b)
  {
    if a >= 0.0 {
      assert a.Floor <= b.Floor;
    } else if b < 0.0 {
      assert (-b).Floor <= (-a).Floor;
    }
  }

  /** The cast of a value in `[0, n]`, `n` a small natural, lies in `[0, n]`. */
  lemma IntCastInRange(x: real, n: nat)
    requires n <= IntMax
    requires 0.0 <= x <= n as real
    ensures 0 <= IntCast(x) <= n
  {
  }

  /** A value that already is a Java `int` casts to itself. */
  lemma IntCastOfInteger(n: Int32)
    ensures IntCast(n as real) == n
  {
  }

  /** The 24-bit RGB part of a Java colour `int` (its low three bytes). */
  function Rgb(argb: int): (r: int)
    ensures 0 <= r < 0x100_0000
  {
    argb % 0x100_0000
  }
}
