/** Optional values and error-carrying results, shared by every module. */
module Wrappers {

  datatype Option<+T> = None | Some(value: T) {
    function GetOr(default: T): T {
      match this
      case Some(v) => v
      case None => default
    }
  }

  /** The result of an operation that may throw; `error` is the message. */
  datatype Result<+T> = Ok(value: T) | Err(error: string)
}
