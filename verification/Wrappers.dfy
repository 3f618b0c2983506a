/** The optional value used wherever the program has a nil value, a missing key or an absent row. */
module Wrappers {
  datatype Option<+T> = None | Some(value: T) {
    /** The value if there is one, otherwise the default. */
    function GetOr(default: T): T {
      match this
      case Some(v) => v
      case None => default
    }
  }
}
