/**
 * The C++ integer conversions the model has to write out, because Dafny's
 * integers are unbounded: the wrap-around of an unsigned or 64-bit value
 * stored into a 32-bit `int`, and the truncation of `(int)` on a float.
 */
module Numeric {
  const TWO_32: int := 0x1_0000_0000
  const INT32_MIN: int := -0x8000_0000
  const INT32_MAX: int := 0x7fff_ffff

  /** The values a 32-bit `int` can hold. */
  predicate IsInt32(x: int) { INT32_MIN <= x <= INT32_MAX }

  /** The values a `guint` can hold. */
  type uint32 = x: int | 0 <= x < TWO_32

  /** An integral value converted to a 32-bit `int`: the value congruent modulo 2^32 in range. */
  function ToInt32(x: int): (r: int)
    ensures IsInt32(r)
    ensures (r - x) % TWO_32 == 0
    ensures IsInt32(x) ==> r == x
  {
    var m := x % TWO_32;
    if m > INT32_MAX then m - TWO_32 else m
  }

  /** `(int)` applied to a floating-point value: truncation toward zero. */
  function Trunc(x: real): (r: int)
    ensures 0.0 <= x ==> r as real <= x < r as real + 1.0
    ensures x < 0.0 ==> r as real - 1.0 < x <= r as real
  {
    if x >= 0.0 then x.Floor else -((-x).Floor)
  }

  /**
   * `(int)` applied to a float: truncation toward zero, wrapped into 32 bits
   * (C++ leaves an out-of-range conversion undefined; the model picks the wrap).
   */
  function FloatToInt(x: real): (r: int)
    ensures IsInt32(r)
    ensures IsInt32(Trunc(x)) ==> r == Trunc(x)
  {
    ToInt32(Trunc(x))
  }
}
