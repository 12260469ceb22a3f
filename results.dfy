/** Values that stand for Python's `None`, a returned value, and a raised `ValueError`. */
module Results {

  /** An optional value: `None` is Python's `None`. */
  datatype Option<+T> = None | Some(value: T)

  /** A computation that either returns a value or raises an error. */
  datatype Result<+T, +E> = Ok(value: T) | Err(error: E)

  /** A computation that returns nothing, or raises an error. */
  datatype Outcome<+E> = Pass | Fail(error: E)
}
