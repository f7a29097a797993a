/** Optional values: JavaScript's `null` / `undefined` for one field, or a
    backend call that returned nothing. */
module Wrappers {

  datatype Option<+T> = None | Some(value: T) {

    /** The value, or `default` when there is none (JavaScript's `x ?? d`,
        where `None` stands for an `x` that is `undefined` or `null`). */
    function GetOr(default: T): T {
      match this
      case Some(v) => v
      case None => default
    }
  }
}
