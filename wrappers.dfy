/** Optional values: JavaScript's `null`/`undefined` next to a present value. */
module Wrappers {

  datatype Option<+T> = None | Some(value: T) {

    /**
     * The value if present, otherwise `default`: JavaScript's `x ?? default`,
     * and `x || default` where `x` is an object or absent.
     */
    function GetOr(default: T): T
    {
      match this
      case Some(v) => v
      case None => default
    }
  }
}
