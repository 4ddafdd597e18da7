/** Option, Result and Outcome: the model's forms of `null`/`undefined`, of a
    resolved-or-rejected promise, and of a call that succeeds or throws. */
module Wrappers {

  datatype Option<+T> = None | Some(value: T)

  datatype Result<+T, +E> = Success(value: T) | Failure(error: E)

  datatype Outcome<+E> = Pass | Fail(error: E)
}
