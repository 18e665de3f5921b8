/** Optional values and results with an error message. */
module Wrappers {

  /** A value that may be absent; the model's rendering of JavaScript's `undefined` (a `null` is not told apart from it). */
  datatype Option<+T> = None | Some(value: T)

  /** The outcome of a step that either yields a value or throws an error carrying a message. */
  datatype Result<+T> = Ok(value: T) | Err(error: string)

  /** The outcome of a step that yields nothing or throws an error carrying a message. */
  datatype Outcome = Pass | Fail(error: string)
}
