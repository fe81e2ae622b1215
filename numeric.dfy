/** The two clamping helpers the simulation uses on real quantities
    (`Math.min` and `Math.max` restricted to two arguments). */
module Numeric {

  function Min(a: real, b: real): (m: real)
    ensures m <= a && m <= b
    ensures m == a || m == b
  {
    if a <= b then a else b
  }

  function Max(a: real, b: real): (m: real)
    ensures a <= m && b <= m
    ensures m == a || m == b
  {
    if a >= b then a else b
  }
}
