/** How a route handler ends: with its result, or with one of the error answers the routes give. */
module Http {
  datatype Outcome<T> =
    | Ok(value: T)
    | BadRequest(error: string)
    | Forbidden(error: string)
    | NotFound(error: string)
    /** Refused by the admin-only middleware before the handler runs. */
    | AdminRequired
    /** An exception passed on to the error middleware. */
    | ServerError
}
