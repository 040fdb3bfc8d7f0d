/** The two shapes a nullable value and a thrown error take in this model. */
module Wrappers {

  /** A JavaScript value that may be `null`/`undefined`. */
  datatype Option<+T> = None | Some(value: T) {
    function GetOr(default: T): T {
      match this
      case Some(v) => v
      case None => default
    }
  }

  /** The result of an `async` operation that either completes or throws. */
  datatype Result<+T, +E> = Ok(value: T) | Err(error: E)
}
