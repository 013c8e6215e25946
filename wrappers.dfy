/** Outcomes of the route handlers, and the JavaScript value rules the handlers rely on. */
module Wrappers {

  datatype Option<T> = None | Some(value: T)

  /** The error responses of the routes, by meaning rather than by HTTP code. */
  datatype Error =
    | Invalid        // 400: a field the request validator requires is empty
    | NotFound       // 404: the referenced user or appointment does not exist
    | NotAuthorized  // 401: authenticated, but not owner or participant
    | Forbidden      // 403: admin access required
    | Conflict       // 400: the time slot is already booked
    | ServerError    // 500: the schema rejected the document when it was saved

  datatype Result<T> = Ok(value: T) | Err(error: Error)

  /** JavaScript truthiness of an optional string taken from a request body. */
  predicate Truthy(s: Option<string>)
  {
    s.Some? && s.value != ""
  }

  /** `given || current`, for a field that always holds a string. */
  function OrString(given: Option<string>, current: string): string
  {
    if Truthy(given) then given.value else current
  }

  /** `given || current`, for an optional field. */
  function OrOption(given: Option<string>, current: Option<string>): Option<string>
  {
    if Truthy(given) then given else current
  }
}
