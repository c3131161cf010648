/** Rust's Option and Result, shared by every module of the storage model. */
module Types {

  /** Rust's `Option<T>`. */
  datatype Option<+T> = None | Some(value: T) {
    /** `unwrap_or(default)` */
    function GetOr(default: T): T {
      match this
      case Some(v) => v
      case None => default
    }
  }

  /** Rust's `Result<T, E>`; errors are the message text the source formats. */
  datatype Result<+T, +E> = Ok(value: T) | Err(error: E)
}
