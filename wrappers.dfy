/** Option and Result, for the values the source represents with `undefined`/`null` and with thrown errors. */
module Wrappers {

  datatype Option<+T> = None | Some(value: T)

  /** The outcome of an awaited call that either returns a value or throws an error carrying a message. */
  datatype Result<+T> = Success(value: T) | Failure(error: string)
}
