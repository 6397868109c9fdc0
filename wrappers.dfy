/** Failure-carrying values shared by every module of the model. */
module Wrappers {

  /** A value that may be absent (Go's nil pointer, TypeScript's undefined or null). */
  datatype Option<T> = None | Some(value: T) {
    /** The value, or the given default when it is absent. */
    function GetOr(default: T): T {
      if Some? then value else default
    }
  }

  /** The signals the core hands back to the request dispatcher instead of a record. */
  datatype Error =
    | NotFound    // the id is absent on lookup, update or delete
    | BadRequest  // a required parameter is missing
    | Internal    // a storage failure

  /** A record or an error signal. */
  datatype Result<T> = Ok(value: T) | Err(error: Error)

  /** The result of an operation that returns nothing but may fail. */
  datatype Outcome = Success | Failure(error: Error)
}
