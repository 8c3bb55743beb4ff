/** Small shared vocabulary: an optional value and integer maximum. */
module Basics {

  /** A value that may be absent (JavaScript's `undefined`/`null`). */
  datatype Option<T> = None | Some(value: T)

  /** `Math.max(n, 1)`. */
  function MaxOne(n: int): (r: nat)
    ensures r >= 1 && r >= n
  {
    if n < 1 then 1 else n
  }

  /** `Math.max` on integers. */
  function Max(a: int, b: int): (r: int)
    ensures r >= a && r >= b && (r == a || r == b)
  {
    if a < b then b else a
  }
}
