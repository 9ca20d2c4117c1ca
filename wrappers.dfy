/** Optional values: `None` stands for JavaScript's `undefined`/`null` wherever the
    source uses an optional object (an account, a stored string, a parameter left out). */
module Wrappers {

  datatype Option<+T> = None | Some(value: T) {

    /** The value, or `default` when there is none (JavaScript's `??` and default parameters). */
    function GetOr(default: T): T {
      match this
      case Some(v) => v
      case None => default
    }
  }
}
