/** Failure-compatible result types shared by the modules of this model. */
module Wrappers {

  /** A value or its absence: Go's nil pointer, nil slice or nil map is `None`. */
  datatype Option<+T> = None | Some(value: T)

  /** A value or an error: Go's `(T, error)` pair where exactly one side is meaningful. */
  datatype Result<+T, +E> = Ok(value: T) | Err(error: E)
}
