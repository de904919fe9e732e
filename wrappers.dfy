/** Failure-carrying values shared by every module of the model. */
module Wrappers {

  /** A value that may be missing: Python's `None` or a present value. */
  datatype Option<+T> = None | Some(value: T) {

    /** The present value, or `default` when there is none. */
    function GetOr(default: T): T {
      match this
      case Some(v) => v
      case None => default
    }
  }

  /**
   * The outcome of a call that may raise: `Ok` with its value, or `Err`
   * with the text `str(e)` of the exception it raised.
   */
  datatype Result<+T> = Ok(value: T) | Err(message: string)
}
