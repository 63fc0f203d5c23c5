/** Optional values and success-or-error results, standing in for TypeScript's
    `T | null` / `undefined` and for thrown `Error`s. */
module Wrappers {

  datatype Option<+T> = None | Some(value: T) {
    function GetOr(default: T): T {
      match this
      case Some(v) => v
      case None => default
    }
  }

  /** `Err(message)` stands for `throw new Error(message)`. */
  datatype Result<+T, +E> = Ok(value: T) | Err(error: E)
}
