/** `Option` and `Result`, standing in for Rust's. */
module Wrappers {

  /** An optional value, as returned by `str::find`. */
  datatype Option<+T> = None | Some(value: T)

  /** The outcome of a fallible constructor (`TryFrom::try_from`). */
  datatype Result<+R, +E> = Success(value: R) | Failure(error: E)
}
