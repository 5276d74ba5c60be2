/** Answers of remote services and results of the server's handlers. */
module Outcomes {

  datatype Option<+T> = None | Some(value: T)

  /** What a remote call (the assistant service, the reference manager,
      the browser's fetch) answers: a value, or an error with its message. */
  datatype Reply<+T> = Ok(value: T) | Err(message: string)

  /** What a handler returns: a payload, or a classified error. */
  datatype Result<+T, +E> = Success(value: T) | Failure(error: E)
}
