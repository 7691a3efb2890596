/** Optional values, the errors a JavaScript `throw` carries, and results that are either a value or such an error. */
module Wrappers {

  datatype Option<+T> = None | Some(value: T) {

    /** The value, or `default` when there is none (`x ?? default`). */
    function GetOr(default: T): T {
      match this
      case Some(v) => v
      case None => default
    }
  }

  /** A thrown `Error`, identified by its message. */
  datatype Error = Error(message: string)

  /** The outcome of an awaited call: a value, or the error it threw. */
  datatype Result<+T> = Ok(value: T) | Err(error: Error)
}
