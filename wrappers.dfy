/** Optional values (a TypeScript `x?: T` or `T | null`) and results of operations that can
    throw (an `Error` raised by a command or a library call). */
module Wrappers {

  datatype Option<+T> = None | Some(value: T) {
    function GetOr(default: T): T {
      match this
      case Some(v) => v
      case None => default
    }
  }

  datatype Result<+T, +E> = Ok(value: T) | Err(error: E)
}
