/**
 * The optional value used for Go's `(value, ok)` and `(value, err)` returns,
 * and the minimum that bounds how much of a buffer a failed write stored.
 */
module Wrappers {

  datatype Option<+T> = None | Some(value: T)

  function Min(a: int, b: int): int {
    if a <= b then a else b
  }
}
