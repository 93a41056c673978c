/** Arithmetic helpers on reals shared by the modules of this project. */
module Reals {

  /** Python's `abs` on a number. */
  function Abs(x: real): real
  {
    if x < 0.0 then -x else x
  }

  /** Python's `min` of two numbers. */
  function Min(x: real, y: real): real
  {
    if x <= y then x else y
  }
}
