/** A value that may be absent: the model's stand-in for JavaScript's `null`
    and `undefined`. */
module Wrappers {

  datatype Option<+T> = None | Some(value: T)

  /** The smaller of two naturals. */
  function Min(a: nat, b: nat): (r: nat)
    ensures r <= a && r <= b
    ensures r == a || r == b
  {
    if a <= b then a else b
  }
}
