/** Values shared by both handlers: optional values (JavaScript's `undefined`)
    and the responses an Express handler can produce. */
module Http {

  /** A value that may be absent (`undefined` in the source). */
  datatype Option<+T> = None | Some(value: T)

  /** An error response written through `res.boom`. */
  datatype BoomError =
    | BadRequest(message: string)    // HTTP 400
    | Unauthorized(message: string)  // HTTP 401

  /** How a route handler ends: an error response, an exception that escapes
      the handler, or a 200 body. */
  datatype Reply =
    | Boom(error: BoomError)
    | Thrown(message: string)
    | Sent(body: string)
}
