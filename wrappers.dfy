/** Optional values and results with an error, as returned by the collaborators of the master. */
module Wrappers {

  /** A value that may be absent (a Go pointer or `net.IP` that may be nil). */
  datatype Option<+T> = None | Some(value: T)

  /** A value or the error that stands in its place (a Go `(value, error)` pair). */
  datatype Result<+T, +E> = Success(value: T) | Failure(error: E)
}
