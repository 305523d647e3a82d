/** The filter's optional radius is an `Option`, and the steps of its try
    block (validation, then field-name lookup) return a `Result`. The first
    error stops the remaining steps, as the thrown exception does in PHP; the
    `IsFailure`/`PropagateFailure`/`Extract` members let `:-` express that. */
module Options {

  datatype Option<+T> = None | Some(value: T)

  /** Either a value or the error that stopped the computation; usable with `:-`. */
  datatype Result<+T, +E> = Ok(value: T) | Err(error: E) {

    predicate IsFailure() {
      Err?
    }

    function PropagateFailure<U>(): Result<U, E>
      requires Err?
    {
      Err(error)
    }

    function Extract(): T
      requires Ok?
    {
      value
    }
  }
}
