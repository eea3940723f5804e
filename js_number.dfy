/**
 * The JavaScript numeric operations the driver relies on, written out over
 * unbounded reals and integers.
 */
module JsNumber {

  function Abs(x: real): (r: real)
    ensures r >= 0.0 && (r == x || r == -x)
  {
    if x < 0.0 then -x else x
  }

  /** `Math.max(a, b)`. */
  function Max(a: real, b: real): (r: real)
    ensures r >= a && r >= b && (r == a || r == b)
  {
    if a < b then b else a
  }

  /** `Math.trunc(x)`: rounds toward zero. */
  function Trunc(x: real): (r: int)
    ensures 0.0 <= x ==> 0 <= r && r as real <= x < r as real + 1.0
    ensures x < 0.0 ==> r <= 0 && r as real - 1.0 < x <= r as real
  {
    if x >= 0.0 then x.Floor else -((-x).Floor)
  }

  const TwoTo31: int := 0x8000_0000
  const TwoTo32: int := 0x1_0000_0000

  /**
   * `x | 0`: truncation toward zero followed by wrap-around into the signed
   * 32-bit range (ECMAScript ToInt32 on a finite number).
   */
  function ToInt32(x: real): (r: int)
    ensures -TwoTo31 <= r < TwoTo31
    ensures (r - Trunc(x)) % TwoTo32 == 0
    ensures -TwoTo31 <= Trunc(x) < TwoTo31 ==> r == Trunc(x)
  {
    var t := Trunc(x);
    (t + TwoTo31) % TwoTo32 - TwoTo31
  }

  /**
   * Scalar clamp as used componentwise by `clamp2`:
   * `x < lo ? lo : x > hi ? hi : x`.
   */
  function Clamp(x: real, lo: real, hi: real): (r: real)
    ensures lo <= hi ==> lo <= r <= hi
    ensures lo <= x <= hi ==> r == x
    ensures x < lo ==> r == lo
    ensures lo <= x && hi < x ==> r == hi
  {
    if x < lo then lo else if x > hi then hi else x
  }
}
