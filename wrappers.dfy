/** Optional values, used for what the source expresses as "empty" (an image
    that failed to decode), "not supplied" (an option left out of the command
    line) or "no exception" (a validation that passed). */
module Wrappers {

  datatype Option<+T> = None | Some(value: T) {

    /** The wrapped value, or `default` when there is none. */
    function GetOr(default: T): T {
      match this
      case Some(v) => v
      case None => default
    }
  }
}
