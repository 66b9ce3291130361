/** Option and Result, the failure-carrying values the rest of the model uses. */
module Wrappers {

  datatype Option<+T> = None | Some(value: T) {

    /** The wrapped value, or `default` when there is none (Rust's `unwrap_or`). */
    function GetOr(default: T): T
    {
      match this
      case Some(v) => v
      case None => default
    }
  }

  /** Either a value or the reason there is none; an `Err` stands for a Rust `unwrap` panic. */
  datatype Result<+T, +E> = Ok(value: T) | Err(error: E)
}
