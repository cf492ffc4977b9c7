/** Small value wrappers shared by the whole model. */
module Wrappers {

  /** A value that may be missing (`undefined` / `null` in the source). */
  datatype Option<+T> = None | Some(value: T) {

    /** The wrapped value, or `default` when missing. */
    function GetOr(default: T): T {
      match this
      case Some(v) => v
      case None => default
    }
  }

  /** How an asynchronous store call completed: its `then` or its `catch` branch. */
  datatype Outcome = Succeeded | Failed
}
