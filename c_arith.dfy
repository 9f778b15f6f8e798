/** The pieces of C arithmetic the view handlers rely on.

    Dafny's `/` and `%` on `int` are Euclidean; C's `/` truncates toward
    zero and its `%` takes the sign of the dividend (section 6.5.5 of
    ISO/IEC 9899). A conversion from `double` to `int` likewise discards
    the fraction toward zero (section 6.3.1.4). */
module CArith {

  /** C's `a / m` for a positive divisor: the quotient truncated toward zero. */
  function CQuot(a: int, m: int): (q: int)
    requires m > 0
    ensures a >= 0 ==> q >= 0
    ensures a <= 0 ==> q <= 0
  {
    if a >= 0 then a / m else -((-a) / m)
  }

  /** C's `a % m` for a positive divisor. Together with `CQuot` it
      satisfies C's identity `(a/m)*m + a%m == a`; the remainder is
      strictly inside (-m, m) and never has the opposite sign of `a`. */
  function CRem(a: int, m: int): (r: int)
    requires m > 0
    ensures CQuot(a, m) * m + r == a
    ensures -m < r < m
    ensures a >= 0 ==> r >= 0
    ensures a <= 0 ==> r <= 0
  {
    if a >= 0 then a % m else -((-a) % m)
  }

  /** A value already strictly inside (-360, 360) is its own C remainder
      modulo 360: re-applying `% 360` to a wrapped angle changes nothing. */
  lemma CRemOfSmall(a: int)
    requires -360 < a < 360
    ensures CRem(a, 360) == a
  {
  }

  /** Adding `b` to an angle already wrapped by `% 360` and wrapping again is
      the same as wrapping the plain sum, as long as `a` and `b` have the same
      sign (so that C's remainder never switches between the two signs). */
  lemma CRemAddSameSign(a: int, b: int)
    requires (a >= 0 && b >= 0) || (a <= 0 && b <= 0)
    ensures CRem(CRem(a, 360) + b, 360) == CRem(a + b, 360)
  {
  }

  /** C's conversion of a `double` to `int`: the fraction is discarded
      toward zero, so the result never lies farther from zero than `x`
      and is less than one away from it. */
  function Trunc(x: real): (n: int)
    ensures x >= 0.0 ==> n >= 0 && n as real <= x < n as real + 1.0
    ensures x < 0.0 ==> n <= 0 && n as real - 1.0 < x <= n as real
  {
    if x >= 0.0 then x.Floor else -((-x).Floor)
  }
}
