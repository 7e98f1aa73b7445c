/** Optional values: Swift's `T?`, with `??` as OrElse. */
module Wrappers {

  datatype Option<+T> = None | Some(value: T) {

    /** `self ?? other` when the fallback is itself optional. */
    function OrElse(other: Option<T>): Option<T> {
      if Some? then this else other
    }
  }
}
