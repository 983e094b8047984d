/** Option and Result, the failure-carrying datatypes the Rust source uses. */
module Wrappers {

  datatype Option<+T> = None | Some(value: T) {
    /** Rust's `unwrap_or`. */
    function GetOr(default: T): T {
      match this
      case Some(v) => v
      case None => default
    }
  }

  /** `anyhow::Result<T>`: the error is carried as its message. */
  datatype Result<+T> = Ok(value: T) | Err(error: string)
}
