/** Optional values (a JavaScript `undefined`/`null` or a present value) and
    results of operations that may throw. */
module Wrappers {

  datatype Option<+T> = None | Some(value: T) {
    function GetOr(default: T): T {
      match this
      case Some(v) => v
      case None => default
    }
  }

  /** `Err` carries the message of the thrown `Error`. */
  datatype Result<+T> = Ok(value: T) | Err(message: string)
}
