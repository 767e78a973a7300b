/** Optional values: JavaScript's `undefined` (or a missing property) is `None`. */
module Wrappers {

  datatype Option<+T> = None | Some(value: T) {

    /** `o ?? d` for a present-or-absent value. */
    function GetOr(default: T): T {
      match this
      case Some(v) => v
      case None => default
    }
  }
}
