// Absolute value and extremes of real numbers.
module Reals {
  function Abs(a: real): (b: real)
    ensures b >= 0.0 && (b == a || b == -a) && (b == 0.0 <==> a == 0.0)
  {
    if a < 0.0 then -a else a
  }

  function Min(a: real, b: real): real {
    if a < b then a else b
  }

  function Max(a: real, b: real): real {
    if a > b then a else b
  }
}
