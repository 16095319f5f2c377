/** Optional values, used wherever the system has "nothing here" (a regular
    expression that does not match, a dictionary key that is absent, a
    closed file handle). */
module Wrappers {

  datatype Option<+T> = None | Some(value: T) {

    /** The value, or `default` when there is none. */
    function GetOr(default: T): T {
      match this
      case Some(v) => v
      case None => default
    }
  }
}
