/** An optional value, and the larger and smaller of two numbers. */
module Wrappers {

  datatype Option<+T> = None | Some(value: T)

  function Max(x: int, y: int): int { if x >= y then x else y }

  function Min(x: int, y: int): int { if x <= y then x else y }
}
