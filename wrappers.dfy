/** Optional values and results that carry an error message: the model's
    replacement for Python's `None` and for exceptions. */
module Wrappers {

  datatype Option<+T> = None | Some(value: T)

  /** The outcome of a call that may raise; `error` stands for `str(e)`. */
  datatype Result<+T> = Success(value: T) | Failure(error: string)
}
