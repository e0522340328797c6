/** The shapes of responses the route handlers build and of parsed request bodies. */
module Http {

  /**
   * A response body: plain text, a JSON `{ error }` object, a JSON payload,
   * or none of the route's own, when the framework answers for a route
   * module that failed to load.
   */
  datatype Body<+T> = Text(text: string) | ErrorJson(error: string) | Json(value: T) | FrameworkError

  datatype Response<+T> = Response(status: int, body: Body<T>)

  /** The outcome of `await request.json()`: a syntax error, or the decoded object. */
  datatype Parsed<+T> = Malformed(syntaxError: string) | WellFormed(value: T)

  /** A response together with the state of the backend after the handler ran. */
  datatype Handled<+T, +S> = Handled(response: Response<T>, state: S)

  /** The body `{ success: true }`. */
  datatype Confirmation = Confirmation(success: bool)

  /** The caller as the authentication check reports it: a user id, or nobody. */
  type UserId = string

  function Fail<T>(status: int, message: string): Response<T> {
    Response(status, ErrorJson(message))
  }

  function Success<T>(value: T): Response<T> {
    Response(200, Json(value))
  }
}
