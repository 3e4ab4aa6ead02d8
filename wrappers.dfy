/** Optional values, used where the source starts from a sentinel such as Double.MAX_VALUE. */
module Wrappers {
  datatype Option<+T> = None | Some(value: T) {
    function GetOr(default: T): T {
      match this
      case Some(v) => v
      case None => default
    }
  }
}
