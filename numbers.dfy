/** `Math.max` and `Math.min` as the game uses them: on whole-number frame
    counts for the spawn timing and the combo and high-score records, and on
    reals for the charge ratio and the ground clamp. */
module JsMath {

  function Max(a: int, b: int): (m: int)
    ensures m >= a && m >= b && (m == a || m == b)
  { if a >= b then a else b }

  function Min(a: int, b: int): (m: int)
    ensures m <= a && m <= b && (m == a || m == b)
  { if a <= b then a else b }

  function MinReal(a: real, b: real): (m: real)
    ensures m <= a && m <= b && (m == a || m == b)
  { if a <= b then a else b }
}
