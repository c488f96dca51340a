/** Small value types shared by every module of the model. */
module Common {

  /** A Python value that may be `None`. */
  datatype Option<T> = None | Some(value: T)

  /** A call that returns `value` or raises `error`. */
  datatype Result<T, E> = Ok(value: T) | Err(error: E)

  /** The smaller of two integers. */
  function Min(a: int, b: int): (m: int)
    ensures m <= a && m <= b
    ensures m == a || m == b
  {
    if a <= b then a else b
  }
}
