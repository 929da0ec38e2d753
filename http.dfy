/** Errors and handler outcomes shared by every request handler of the blog server. */
module Http {

  /** An `HttpError` carries a user-facing message and an HTTP status code. */
  datatype HttpError = HttpError(message: string, code: int)

  /** What a handler does with a request: it either writes a response with a
      status and a JSON body, or hands an error on to the error handler
      (by `throw` or by `next(error)`, which reach the same place). */
  datatype Handled<B> = Sent(status: int, body: B) | Failed(error: HttpError)

  /** A handler failure with the given message and code. */
  function Fail<B>(message: string, code: int): Handled<B>
  {
    Failed(HttpError(message, code))
  }
}
