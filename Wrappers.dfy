/** Option and Result values for the outcomes the client code branches on. */
module Wrappers {

  datatype Option<+T> = None | Some(value: T)

  /** The outcome of an awaited call: its resolved value, or the message of the error it threw. */
  datatype Result<+T> = Success(value: T) | Failure(message: string)

  /** The outcome of an awaited call that resolves to nothing. */
  datatype Completion = Done | Failed(message: string)
}
