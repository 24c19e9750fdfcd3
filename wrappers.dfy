/** Optional values: Swift's `T?`. */
module Wrappers {

  datatype Option<+T> = None | Some(value: T) {

    /** Swift's `??`: the wrapped value, or `default` when there is none. */
    function GetOr(default: T): T {
      match this
      case Some(v) => v
      case None => default
    }

    /** Swift's `??` between two optionals: this one when present, else `other`. */
    function OrElse(other: Option<T>): Option<T> {
      if Some? then this else other
    }
  }
}
