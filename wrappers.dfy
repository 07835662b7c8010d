/** Optional values and the outcome of an awaited call that may throw. */
module Wrappers {

  /** A value that may be absent: a request field that was not sent, a row that was not found. */
  datatype Option<+T> = None | Some(value: T)

  /** The outcome of an awaited call that can throw (request.json(), a payment SDK call).
      A thrown error carries its message, which the route handlers echo when it is non-empty. */
  datatype Outcome<+T> = Ok(value: T) | Throws(message: string)
}
