/** Small failure-carrying datatypes shared by every module of the model. */
module Wrappers {

  /** A possibly absent value: `undefined`/`null` slots of the source become `None`. */
  datatype Option<+T> = None | Some(value: T) {
    /** The value, or `default` when absent. */
    function GetOr(default: T): T {
      match this
      case Some(v) => v
      case None => default
    }
  }

  /** Normal completion, or the message of an `Error` the source throws. */
  datatype Outcome<+E> = Pass | Fail(error: E)
}
