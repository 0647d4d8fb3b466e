/** The Option datatype and `Min`, shared by the other modules. */
module Wrappers {

  /** The usual Some/None datatype, used for Python's `None`-or-value fields. */
  datatype Option<+T> = None | Some(value: T)

  function Min(a: int, b: int): (m: int)
    ensures m <= a && m <= b
    ensures m == a || m == b
  {
    if a <= b then a else b
  }
}
