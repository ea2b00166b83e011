/** Option and Result values shared by every module of the model. */
module Wrappers {

  /** A value that may be missing: JavaScript `null`/`undefined`, Java `null`. */
  datatype Option<T> = None | Some(value: T) {
    function GetOr(default: T): T {
      match this
      case Some(v) => v
      case None => default
    }
  }

  /** The outcome of an operation that can fail with an error message. */
  datatype Result<T> = Ok(value: T) | Err(message: string)
}
