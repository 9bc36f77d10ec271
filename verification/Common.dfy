/** Small shared datatypes. */
module Common {

  datatype Option<+T> = None | Some(value: T)

  datatype Result<+T, +E> = Ok(value: T) | Err(error: E)

  function Min(a: int, b: int): int {
    if a <= b then a else b
  }

  function Max(a: int, b: int): int {
    if a >= b then a else b
  }

  /** Any value at all: a clock reading, a random identifier, an abort flag, an answer of the outside world. */
  method Anything<T(0)>() returns (t: T)
  {
    t := *;
  }
}
