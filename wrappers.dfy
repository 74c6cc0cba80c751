/** Optional values: `None` stands for JavaScript's `undefined` (an absent
    property, a missing query parameter) or for an operation that threw. */
module Wrappers {

  datatype Option<+T> = None | Some(value: T) {

    function GetOr(default: T): T {
      match this
      case Some(v) => v
      case None => default
    }
  }
}
