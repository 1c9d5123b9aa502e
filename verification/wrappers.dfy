/** The optional and fallible values of the model. `Option` stands for Rust's
    `Option<T>`. `Result` carries either a value or the reason `start_session`
    stopped, and `:-` propagates that reason. */
module Wrappers {

  datatype Option<+T> = None | Some(value: T)

  datatype Result<+R, +E> = Success(value: R) | Failure(error: E) {

    predicate IsFailure() {
      Failure?
    }

    function PropagateFailure<U>(): Result<U, E>
      requires Failure?
    {
      Failure(error)
    }

    function Extract(): R
      requires Success?
    {
      value
    }
  }
}
