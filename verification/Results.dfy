/** Values that stand for Go's `(value, error)` and nil-able results. */
module Results {
  datatype Option<+T> = None | Some(value: T)
  datatype Result<+T, +E> = Success(value: T) | Failure(error: E)
}
