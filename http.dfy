/**
 * The boundary to the HTTP library. No request is performed: an operation
 * returns the request it would send, and the caller supplies what came back.
 */
module Http {

  datatype Verb = Get | Post | Patch

  /** A JSON scalar in a payload, a query parameter or a header. */
  datatype Value = Str(s: string) | Int(i: int)

  /** A request: verb, URL, and its JSON payload, query parameters or headers. */
  datatype HttpRequest = HttpRequest(verb: Verb, url: string, fields: map<string, Value>)

  /**
   * What a call to the library produced: a response with its status code and
   * decoded body, or a raised exception (connection error, timeout, or a body
   * that could not be decoded).
   */
  datatype Outcome<T> = Response(code: int, body: T) | Raised(error: string)

  /** A response with exactly status `code`. */
  predicate HasStatus<T>(o: Outcome<T>, code: int) {
    o.Response? && o.code == code
  }

  /** A response with status 200 or 201 (`status_code in [200, 201]`). */
  predicate IsCreated<T>(o: Outcome<T>) {
    HasStatus(o, 200) || HasStatus(o, 201)
  }
}
