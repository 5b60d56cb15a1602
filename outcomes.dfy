/** Optional values and the exceptions the service lets escape. */
module Outcomes {

  /** Python's `None` or a present value. */
  datatype Option<+T> = None | Some(value: T)

  /** Python exceptions that escape an endpoint uncaught (the client then sees a server error). */
  datatype Exception =
    | JsonDecodeError   // `json.loads` on text that is not JSON
    | TypeError         // subscripting a parsed JSON value that is not an object
    | KeyError          // a parsed object without the key being read
    | IndexError        // a list index outside the list

  /** A value, or the exception raised while computing it. */
  datatype Result<+T> = Success(value: T) | Failure(exception: Exception)
}
