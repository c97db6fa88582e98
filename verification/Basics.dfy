/** Shared vocabulary: optional values, used where the source has a pointer that may be nil. */
module Basics {

  datatype Option<+T> = None | Some(value: T) {
    /** The value, or a default for None. */
    function GetOr(default: T): T {
      match this
      case Some(v) => v
      case None => default
    }
  }
}
