/** Optional values. `None` also stands for the JavaScript `NaN` a failed parse yields. */
module Wrappers {

  datatype Option<T> = None | Some(value: T) {

    /** The value, or `default` when there is none (the `x || 0` idiom). */
    function GetOr(default: T): T
    {
      match this
      case Some(v) => v
      case None => default
    }
  }
}
