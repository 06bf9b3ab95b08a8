/** `Option` and `Result`, shared by the other modules. */
module Wrappers {

  /** A value that may be absent: JavaScript's `undefined` is `None`. */
  datatype Option<+T> = None | Some(value: T) {
    function GetOr(default: T): T {
      match this
      case Some(v) => v
      case None => default
    }
  }

  /** The outcome of an operation that may throw: `Err` carries what is thrown. */
  datatype Result<+T, +E> = Ok(value: T) | Err(error: E)
}
