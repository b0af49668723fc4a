/** Failure-carrying values shared by every module of the model.

    The Python pipeline signals failure by raising; each exception class it can
    raise on the modelled paths becomes one constructor of `Error`, and every
    operation that can raise returns a `Result`.
 */
module Results {

  datatype Option<+T> = None | Some(value: T)

  /** The Python exception classes raised on the modelled paths. */
  datatype Error =
    | ValueError(message: string)
    | KeyError(key: string)
    | IndexError(message: string)
    | StopIteration

  datatype Result<+T> = Ok(value: T) | Err(error: Error) {

    predicate IsFailure() {
      Err?
    }

    function PropagateFailure<U>(): Result<U>
      requires Err?
    {
      Err(error)
    }

    function Extract(): T
      requires Ok?
    {
      value
    }
  }
}
