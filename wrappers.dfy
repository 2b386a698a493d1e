/** JavaScript's `undefined` / `null` versus a present value. */
module Wrappers {

  datatype Option<T> = None | Some(value: T) {

    /** `x ?? d`: the value when present, otherwise the default. */
    function GetOr(default: T): T {
      match this
      case Some(v) => v
      case None => default
    }
  }
}
