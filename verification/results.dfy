/** Optional values and error-carrying results shared by the other modules. */
module Results {

  /** A value that may be absent: a TypeScript `undefined`, a Go `nil` pointer. */
  datatype Option<+T> = None | Some(value: T)

  /** The outcome of an operation that may fail: Go's `(value, error)` pair. */
  datatype Result<+T, +E> = Ok(value: T) | Err(error: E)
}
