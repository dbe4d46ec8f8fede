/** Small value types shared by the model. */
module Values {

  /** A Go pointer or optional result: nil or a value. */
  datatype Option<+T> = None | Some(value: T)

  /** A Go (value, error) pair of which exactly one part is meaningful. */
  datatype Result<+T, +E> = Ok(value: T) | Err(error: E)

  function Min(a: int, b: int): int {
    if a <= b then a else b
  }

  function Max(a: int, b: int): int {
    if a <= b then b else a
  }
}
