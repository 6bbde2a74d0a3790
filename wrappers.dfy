/** Option and Result values shared by the modules of this model. */
module Wrappers {

  /** An optional value: JavaScript's `null` (or `undefined`) is `None`. */
  datatype Option<+T> = None | Some(value: T)

  /** The outcome of a call that may throw: `Failure` carries the thrown error's message. */
  datatype Result<+R, +E> = Success(value: R) | Failure(error: E)
}
