/** Small option type used for values that may be absent or fail to parse. */
module Wrappers {
  datatype Option<+T> = None | Some(value: T) {
    /** The value if present, otherwise the given default. */
    function GetOr(default: T): T {
      match this
      case Some(v) => v
      case None => default
    }
  }
}
