/** Failure-compatible result types standing in for Node-style `cb(err, value)` callbacks. */
module Wrappers {

  datatype Option<+T> = None | Some(value: T)

  /** A callback outcome: `cb(null, value)` or `cb(error)`; errors are messages. */
  datatype Result<+T> = Success(value: T) | Failure(error: string) {

    predicate IsFailure() {
      Failure?
    }

    function PropagateFailure<U>(): Result<U>
      requires Failure?
    {
      Failure(error)
    }

    function Extract(): T
      requires Success?
    {
      value
    }
  }
}
