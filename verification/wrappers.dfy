/** Optional values and success/failure results, used wherever the modelled
    code returns `null`/`undefined` or throws. */
module Wrappers {

  datatype Option<+T> = None | Some(value: T) {

    /** Returns the value in Some, or the given default */
    function GetOr(default: T): T {
      match this
      case Some(v) => v
      case None => default
    }
  }

  /** A computation that either produced a value or raised an error message */
  datatype Result<+R> = Ok(value: R) | Err(message: string)
}
