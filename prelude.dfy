/** Plain optional values and results shared by the whole model. */
module Prelude {

  /** A value that may be absent: Python's `Optional[T]` (`None` or a value). */
  datatype Option<+T> = None | Some(value: T)

  /** The outcome of an operation that either returns a value or raises. */
  datatype Result<+T, +E> = Success(value: T) | Failure(error: E)
}
