/** Failure-carrying values shared by every component of the model. */
module Wrappers {

  /** A value that may be missing (a dictionary key that is absent, a parse that failed). */
  datatype Option<+T> = None | Some(value: T)

  /** The outcome of a step that may raise: `Failure` carries the text `str(e)` of the exception. */
  datatype Result<+T> = Success(value: T) | Failure(error: string)
}
