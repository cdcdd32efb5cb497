/** Values shared by every part of the client: optional values, JavaScript
    truthiness of a string-or-null, and the shape of a settled HTTP call. */
module Common {

  /** A value that may be `null` in the source. */
  datatype Option<+T> = None | Some(value: T)

  /** JavaScript truthiness of a `string | null`: `null` and `""` are falsy. */
  predicate Truthy(s: Option<string>) {
    s.Some? && s.value != ""
  }

  /** `s || fallback` for a `string | null` operand. */
  function OrElse(s: Option<string>, fallback: string): (r: string) {
    if Truthy(s) then s.value else fallback
  }

  /** What an HTTP error carries when the server answered: its status and
      the optional `error` message of its JSON body. */
  datatype ErrorResponse = ErrorResponse(status: int, error: Option<string>)

  /** A rejected HTTP call; `response` is absent for a transport failure
      (no answer, timeout). */
  datatype HttpError = HttpError(response: Option<ErrorResponse>)

  /** How an awaited HTTP call settles: resolved with the response data,
      or rejected with an error. */
  datatype Reply<+T> = Resolved(data: T) | Thrown(error: HttpError)
}
