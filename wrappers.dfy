module Wrappers {

  /** An optional value: JavaScript's `null` / `undefined` against an object. */
  datatype Option<+T> = None | Some(value: T)

  /** `Math.max` on integers. */
  function Max(a: int, b: int): (r: int)
    ensures r >= a && r >= b && (r == a || r == b)
  {
    if a >= b then a else b
  }
}
