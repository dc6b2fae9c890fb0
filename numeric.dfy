/** Python's built-in min/max/round, numpy's clip and the modular-index facts the
    delay line relies on, stated over Dafny's unbounded `real` and `int`. */
module Numeric {

  /** Python's min(a, b) on two floats. */
  function Min(a: real, b: real): real { if a <= b then a else b }

  /** Python's max(a, b) on two floats. */
  function Max(a: real, b: real): real { if a >= b then a else b }

  /** Python's abs(x) on a float. */
  function Abs(x: real): real { if x < 0.0 then -x else x }

  /** Python's max(a, b) on two ints. */
  function MaxInt(a: int, b: int): int { if a >= b then a else b }

  /** numpy.clip(x, lo, hi) for bounds in order: min(max(x, lo), hi). */
  function Clip(x: real, lo: real, hi: real): (r: real)
    requires lo <= hi
    ensures lo <= r <= hi
    ensures lo <= x <= hi ==> r == x
    ensures x < lo ==> r == lo
    ensures hi < x ==> r == hi
  {
    Min(Max(x, lo), hi)
  }

  /** Clipping twice is clipping once. */
  lemma ClipIdempotent(x: real, lo: real, hi: real)
    requires lo <= hi
    ensures Clip(Clip(x, lo, hi), lo, hi) == Clip(x, lo, hi)
  {
  }

  /** Python's round() on an exact value: the nearest integer, a tie going to
      the even neighbour. */
  function RoundHalfEven(x: real): (r: int)
    ensures x - 0.5 <= r as real <= x + 0.5
    ensures (r as real - x == 0.5 || x - r as real == 0.5) ==> r % 2 == 0
  {
    var f := x.Floor;
    var frac := x - f as real;
    if frac < 0.5 then f
    else if frac > 0.5 then f + 1
    else if f % 2 == 0 then f
    else f + 1
  }

  /** Rounding an integral value gives that value back. */
  lemma RoundOfInteger(n: int)
    ensures RoundHalfEven(n as real) == n
  {
  }

  /** Two indices less than n apart never share a slot modulo n. */
  lemma ModDistinct(a: int, b: int, n: int)
    requires 0 < n && a < b < a + n
    ensures a % n != b % n
  {
    var d := b / n - a / n;
    assert d * n == (b - a) - (b % n - a % n);
    MulBounds(d, n);
  }

  /** An integer multiple of n strictly between -n and 2n is 0 or n. */
  lemma MulBounds(d: int, n: int)
    requires 0 < n
    ensures d <= -1 ==> d * n <= -n
    ensures d >= 2 ==> d * n >= 2 * n
  {
    if d <= -1 {
      assert d * n == -n + (d + 1) * n;
    }
    if d >= 2 {
      assert d * n == 2 * n + (d - 2) * n;
    }
  }

  /** A negative index less than n below zero wraps around to k + n, as Python's
      % does for a positive divisor. */
  lemma ModOfNegative(k: int, n: int)
    requires 0 < n && -n <= k < 0
    ensures k % n == k + n
  {
  }

  /** The product of two non-negative reals is non-negative. */
  lemma MulNonneg(x: real, y: real)
    requires 0.0 <= x && 0.0 <= y
    ensures 0.0 <= x * y
  {
  }
}
