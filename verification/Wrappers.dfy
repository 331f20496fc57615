/** Values that may be missing, and the smaller and the larger of two. */
module Wrappers {
  datatype Option<+T> = None | Some(value: T)

  function Min(x: int, y: int): int { if x <= y then x else y }

  function Max(x: int, y: int): int { if x >= y then x else y }
}
