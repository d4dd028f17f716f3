/** Swift's `max` on integers and on floating-point values. */
module Numeric {

  function Max(a: int, b: int): int {
    if a >= b then a else b
  }

  function MaxReal(a: real, b: real): real {
    if a >= b then a else b
  }

}
