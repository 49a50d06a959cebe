/** Shared helper types. */
module Common {

  /** A value that may be missing: an absent document field, a failed read,
      a completion request that did not answer. */
  datatype Option<+T> = None | Some(value: T) {

    /** The value, or `default` when it is missing (JavaScript's `x || default`
        for the string fields this model reads). */
    function GetOr(default: T): T {
      match this
      case Some(v) => v
      case None => default
    }
  }
}
