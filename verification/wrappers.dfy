/** Optional values: a JavaScript property that may be missing (`undefined`) or a value
    that may be absent, such as the result of `Array.prototype.find`. */
module Wrappers {

  datatype Option<+T> = None | Some(value: T) {

    /** The value, or `default` when absent: JavaScript's `x ?? default` (and `x || default`
        when no present value is falsy). */
    function GetOr(default: T): T {
      match this
      case Some(v) => v
      case None => default
    }
  }
}
