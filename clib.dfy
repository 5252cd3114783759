/**
 * Stand-ins for the pieces of the C library that the sensor models use:
 * the bounded random draw `rand() % 201`, `round` from math.h and the
 * `(int)` conversion of a double. Everything is over exact reals.
 */
module CLib {

  /** One value of `rand() % 201`. `rand()` is never negative, so the draw lies in 0..200. */
  type Draw = r: int | 0 <= r <= 200

  /** The draw that makes every noise term of the models vanish. */
  const Centre: Draw := 100

  /** `(rand() % 201) - 100`, the signed offset every noise term is built from. */
  function Offset(r: Draw): (o: int)
    ensures -100 <= o <= 100
    ensures o == 0 <==> r == Centre
  {
    r - 100
  }

  /** `|x|` over reals. */
  function Abs(x: real): (a: real)
    ensures a >= 0.0 && (a == x || a == -x)
  {
    if x < 0.0 then -x else x
  }

  /**
   * C's `round`: the nearest integer, halfway cases rounded away from zero.
   */
  function Round(x: real): (n: int)
    ensures x >= 0.0 ==> x - 0.5 < n as real <= x + 0.5
    ensures x < 0.0 ==> x - 0.5 <= n as real < x + 0.5
  {
    if x >= 0.0 then (x + 0.5).Floor else -((-x + 0.5).Floor)
  }

  /** The triangle inequality. */
  lemma AbsTriangle(a: real, b: real)
    ensures Abs(a + b) <= Abs(a) + Abs(b)
  {
  }

  /** `round` leaves an integer unchanged. */
  lemma RoundOfInteger(k: int)
    ensures Round(k as real) == k
  {
  }

  /** C's `(int)` conversion of a double: truncation toward zero. */
  function Trunc(x: real): (n: int)
    ensures x >= 0.0 ==> n as real <= x < n as real + 1.0
    ensures x < 0.0 ==> n as real - 1.0 < x <= n as real
  {
    if x >= 0.0 then x.Floor else -((-x).Floor)
  }

  /**
   * The two-sided range limit the models write as
   * `if (x > hi) x = hi; if (x < lo) x = lo;`.
   */
  function Clamp(x: real, lo: real, hi: real): (c: real)
    requires lo <= hi
    ensures lo <= c <= hi
    ensures lo <= x <= hi ==> c == x
    ensures x > hi ==> c == hi
    ensures x < lo ==> c == lo
  {
    if x > hi then hi else if x < lo then lo else x
  }

  /** The product of two non-negative reals is non-negative. */
  lemma ProductNonNegative(a: real, b: real)
    requires a >= 0.0 && b >= 0.0
    ensures a * b >= 0.0
  {
  }

  /** A factor of magnitude at most `b` scales `a` by at most `|a|·b`. */
  lemma ScaledBound(a: real, k: real, b: real)
    requires Abs(k) <= b
    ensures Abs(a * k) <= Abs(a) * b
  {
    if a >= 0.0 {
      ProductNonNegative(a, b - k);
      ProductNonNegative(a, b + k);
    } else {
      ProductNonNegative(-a, b - k);
      ProductNonNegative(-a, b + k);
    }
  }

  /** `x` is a whole number of steps of size `step`. */
  predicate OnGrid(x: real, step: real)
    requires step > 0.0
  {
    (x / step).Floor as real == x / step
  }

  /**
   * `round(x / step) * step`, the source's idiom for rounding to a sensor's
   * resolution: a whole number of steps, within half a step of `x`.
   */
  function Quantise(x: real, step: real): (q: real)
    requires step > 0.0
    ensures OnGrid(q, step)
    ensures Abs(q - x) <= step / 2.0
    ensures x >= 0.0 ==> q >= 0.0
    ensures x < 0.0 ==> q <= 0.0
  {
    var n := Round(x / step);
    StepsScaled(x, step, n);
    n as real * step
  }

  /** `n` steps of size `step`, with `n` within half of x / step, lie within half a step of `x` on its side of zero. */
  lemma StepsScaled(x: real, step: real, n: int)
    requires step > 0.0
    requires x / step - 0.5 <= n as real <= x / step + 0.5
    requires x >= 0.0 ==> n >= 0
    requires x < 0.0 ==> n <= 0
    ensures OnGrid(n as real * step, step)
    ensures Abs(n as real * step - x) <= step / 2.0
    ensures x >= 0.0 ==> n as real * step >= 0.0
    ensures x < 0.0 ==> n as real * step <= 0.0
  {
    var q := n as real * step;
    assert q / step == n as real;
    assert q - x == step * (n as real - x / step);
    ScaledBound(step, n as real - x / step, 0.5);
    if n >= 0 {
      ProductNonNegative(n as real, step);
    } else {
      ProductNonNegative(-n as real, step);
    }
  }
}
