/** Option, the value-or-nothing wrapper used for JavaScript's `null`/`undefined`
    results and for abstract partial functions. */
module Wrappers {

  datatype Option<+T> = None | Some(value: T) {

    /** Returns the wrapped value, or `default` when there is none. */
    function GetOr(default: T): T {
      match this
      case Some(v) => v
      case None => default
    }
  }
}
