/** Optional values (TypeScript's `T | null | undefined`) and results of operations
    that may throw. */
module Wrappers {

  datatype Option<+T> = None | Some(value: T) {

    /** `x ?? fallback` */
    function GetOr(fallback: T): T {
      match this
      case Some(v) => v
      case None => fallback
    }

    /** `a ?? b` on two optional values: the first one that is present. */
    function OrElse(other: Option<T>): Option<T> {
      if Some? then this else other
    }
  }

  /** A value, or the message of the error the source throws or returns instead. */
  datatype Result<+T> = Success(value: T) | Failure(error: string)
}
