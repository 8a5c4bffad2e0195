/** Absent-or-present values and success-or-error results used across the model. */
module Wrappers {

  /** A value that may be missing: an absent input field or a lookup that found no row. */
  datatype Option<T> = None | Some(value: T) {
    function GetOr(default: T): T {
      match this
      case Some(v) => v
      case None => default
    }
  }

  /** The outcome of a handler: the returned value, or the error it throws. */
  datatype Result<T, E> = Ok(value: T) | Err(error: E)
}
