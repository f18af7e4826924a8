/**
 * The library's exception taxonomy, as values. Python models these as a class
 * hierarchy under NetatmoError; here each kind is one constructor.
 */
module Errors {
  import opened Wrappers

  /** Why an API request failed: an HTTP error status, a timeout, or any other request failure. */
  datatype ApiFailure =
    | HttpStatus(code: int)   // "HTTP <code>": the server answered with an error status
    | RequestTimeout          // "Request timeout"
    | NetworkError            // "Network error": connection failure, unreadable or non-JSON success body

  datatype Error =
    | ValidationError(field: string)   // "<field> cannot be empty" / "<field> must be between ..."
    | RoomNotFoundError(roomId: string)
    | HomeNotFoundError
    | AuthenticationError
    | ApiError(failure: ApiFailure)

  /** `ApiError.status_code`: the HTTP status for an HTTP failure, `None` otherwise. */
  function StatusCode(f: ApiFailure): (code: Option<int>)
    ensures code.Some? <==> f.HttpStatus?
    ensures f.HttpStatus? ==> code == Some(f.code)
  {
    match f
    case HttpStatus(c) => Some(c)
    case _ => None
  }
}
