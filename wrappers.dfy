/** The optional-value type shared by every module of the model. */
module Wrappers {

  /** A value that may be absent: a missing request field, a failed match. */
  datatype Option<+T> = None | Some(value: T) {

    /** The held value, or `default` when there is none. */
    function GetOr(default: T): T {
      match this
      case Some(v) => v
      case None => default
    }
  }
}
