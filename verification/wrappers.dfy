/** Failure-carrying datatypes shared by the rest of the model. */
module Wrappers {

  /** A value that may be absent, as Rust's `Option`. */
  datatype Option<+T> = None | Some(value: T) {

    /** Returns the value in `Some`, or `default` when absent (Rust's `unwrap_or`). */
    function GetOr(default: T): T {
      match this
      case Some(v) => v
      case None => default
    }
  }

  /** A value or an error, as Rust's `Result`. */
  datatype Result<+R, +E> = Ok(value: R) | Err(error: E)
}
