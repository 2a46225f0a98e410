/** The Option type used throughout the model for JavaScript values that may be
    absent: `undefined`, `null`, and the `NaN` produced by a failed parse. */
module Wrappers {

  datatype Option<+T> = None | Some(value: T) {

    /** The encapsulated value, or `default` when absent. */
    function GetOr(default: T): T {
      match this
      case Some(v) => v
      case None => default
    }
  }
}
