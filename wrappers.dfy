/** The optional value used throughout the model; `None` stands for JavaScript's
    `undefined` (a missing property, an absent storage entry, an unset variable). */
module Wrappers {

  datatype Option<+T> = None | Some(value: T) {

    /** `x ?? d`: the value when present, `d` otherwise. */
    function GetOr(default: T): T {
      match this
      case Some(v) => v
      case None => default
    }
  }
}
