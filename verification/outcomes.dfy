/** Optional values, the errors the modelled code can meet, and the
    success/failure outcome of a call that may throw. */
module Outcomes {

  /** Swift's `Optional`. */
  datatype Option<+T> = None | Some(value: T)

  /** The errors that flow through the modelled code. Transport and API
      failures come from the network layer, the two key errors from
      `Decodable`, and `CanceledLogin` from the system web-authentication
      session when the user dismisses it. */
  datatype Error =
    | Transport(reason: string)
    | Api(code: string, message: string)
    | KeyNotFound(key: string)
    | ValueNotFound(key: string)
    | CanceledLogin

  /** The outcome of an `async throws` call: a value, or the error thrown. */
  datatype Outcome<+T> = Ok(value: T) | Fail(error: Error)
}
