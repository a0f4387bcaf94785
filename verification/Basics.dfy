/** Small things used everywhere. */
module Basics {
  datatype Option<T> = None | Some(value: T)

  datatype Result<T, E> = Ok(value: T) | Err(error: E)

  function Lesser(a: int, b: int): int {
    if a < b then a else b
  }

  function Larger(a: int, b: int): int {
    if a < b then b else a
  }
}
