/** Option and Result, the shapes Rust's `Option<T>` and `anyhow::Result<T>` take in this model. */
module Wrappers {

  datatype Option<+T> = None | Some(value: T) {

    /** Rust's `unwrap_or` / `unwrap_or_default`. */
    function GetOr(default: T): T {
      if Some? then value else default
    }
  }

  datatype Result<+T, +E> = Success(value: T) | Failure(error: E)
}
