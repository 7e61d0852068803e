/** The larger and the smaller of two numbers. */
module Extrema {
  function Max(a: real, b: real): real {
    if a >= b then a else b
  }

  function Min(a: real, b: real): real {
    if a <= b then a else b
  }

  function MinInt(a: int, b: int): (r: int)
    ensures r == a || r == b
  {
    if a <= b then a else b
  }
}
