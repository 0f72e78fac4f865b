/** Option and Result, the two ways the modelled code reports "no value" and failure. */
module Wrappers {

  /** `null`/`undefined` on the JavaScript side is `None` here. */
  datatype Option<+T> = None | Some(value: T) {
    function GetOr(default: T): T {
      match this
      case Some(v) => v
      case None => default
    }
  }

  /** A settled promise: resolved with a value or rejected with an error. */
  datatype Result<+R, +E> = Ok(value: R) | Err(error: E)

  /**
   * What a `catch (error)` clause receives: either an `Error` instance with
   * its `message`, or some other thrown value (whose properties the handlers
   * never read).
   */
  datatype Caught = ErrorObject(message: string) | OtherValue
}
