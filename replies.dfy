/**
 The outcome of a network call, as the session sees it. The browser's `fetch`
 and the JSON decoding of its reply are not modelled: each remote call's result
 is handed to the session as a value of one of these types.
 */
module Replies {

  datatype Option<+T> = None | Some(value: T)

  /** A JSON reply: either the decoded payload of a 2xx response, or a failure
      (non-2xx status or transport error). A 2xx body that decodes but does not
      have the expected shape is not represented. */
  datatype Reply<+T> = Ok(payload: T) | Failed

  /** A value computed locally, or the error the page reports instead. */
  datatype Result<+T, +E> = Success(value: T) | Failure(error: E)
}
