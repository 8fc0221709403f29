/** Optional values, settled promises and the error objects the form builder throws. */
module Outcomes {

  /** A value that may be missing: JavaScript's `undefined` or `null`, or a present value. */
  datatype Option<+T> = None | Some(value: T) {
    /** The value, or `default` when there is none. */
    function GetOr(default: T): T
    {
      if Some? then value else default
    }
  }

  /** A settled promise: fulfilled with a value or rejected with an error. */
  datatype Result<+T, +E> = Ok(value: T) | Err(error: E)

  /** The error payload kept on an error object; JSON, kept here as its serialized text. */
  type Json = string

  /**
   * An error as thrown in the form builder: a `WebinyError` carries a message, a
   * machine-readable code and optional data; a JavaScript `TypeError` has no code
   * and no data.
   */
  datatype Error = Error(message: string, code: Option<string>, data: Option<Json>)
}
