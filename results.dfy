/** Failure values for the operations of the batch generator.
    The source propagates every failure with `?` as an opaque error carrying a
    message; here that is an explicit `Result` whose `:-` plays the part of `?`. */
module Results {

  /** An error as the generator reports it: a message and nothing else. */
  datatype Error = Error(message: string)

  datatype Result<+T> = Ok(value: T) | Err(error: Error) {

    predicate IsFailure() {
      Err?
    }

    function PropagateFailure<U>(): Result<U>
      requires Err?
    {
      Err(error)
    }

    function Extract(): T
      requires Ok?
    {
      value
    }
  }
}
