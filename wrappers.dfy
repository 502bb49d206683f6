/** Optional values and fallible results, standing for Swift optionals and `throws`. */
module Wrappers {

  datatype Option<+T> = None | Some(value: T) {
    function GetOr(default: T): T {
      match this
      case Some(v) => v
      case None => default
    }

    /** Swift's `if let v = new { stored = v }`: this value when present, `other` otherwise. */
    function OrElse(other: Option<T>): Option<T> {
      if Some? then this else other
    }
  }

  /** The outcome of a call that may throw; `Failure` carries the error's description. */
  datatype Result<+R, +E> = Success(value: R) | Failure(error: E)
}
