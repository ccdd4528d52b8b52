/** Optional values: the model's rendering of `null`, `undefined` and absent fields. */
module Wrappers {

  datatype Option<+T> = None | Some(value: T) {

    /**
     * The value, or `default` when there is none. JavaScript's
     * `x || default` also falls back on a present falsy value; the pages use
     * it only where that makes no difference: an array is never falsy, and a
     * count of `0` falls back to the default `0`.
     */
    function GetOr(default: T): T {
      match this
      case Some(v) => v
      case None => default
    }
  }
}
