/** Optional values: `None` stands for a result the source does not define
    (numpy's NaN for the mean of an empty selection). */
module Wrappers {
  datatype Option<+T> = None | Some(value: T)
}

/** Integer minimum and maximum, as Python's `min` and `max` on two ints. */
module IntMath {
  function Min(a: int, b: int): int {
    if a < b then a else b
  }

  function Max(a: int, b: int): int {
    if a < b then b else a
  }
}
