/** Option and Result, the two failure-carrying shapes the model needs. */
module Wrappers {

  /** A value that may be absent: an unset query parameter, a number that did
      not parse, a lookup that found no record. */
  datatype Option<+T> = None | Some(value: T)

  /** The outcome of a call that may throw: a value, or the thrown message. */
  datatype Result<+R, +E> = Success(value: R) | Failure(error: E)
}
