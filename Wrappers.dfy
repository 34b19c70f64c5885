/** Optional values: a Python `None` / `Optional[...]` field, a JavaScript
    `undefined` argument or a React state that may hold `null`. */
module Wrappers {

  datatype Option<+T> = None | Some(value: T) {

    /** The held value, or `default` when there is none. */
    function GetOr(default: T): T {
      match this
      case Some(v) => v
      case None => default
    }
  }
}
