/** The optional-value wrapper used throughout the model. */
module Wrappers {

  /** `None` stands for a value that is absent (JavaScript `undefined`). */
  datatype Option<+T> = None | Some(value: T) {

    /** The wrapped value, or `default` when there is none. */
    function GetOr(default: T): T {
      match this
      case Some(v) => v
      case None => default
    }
  }
}
