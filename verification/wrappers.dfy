/** Missing cells and raised errors. `Option` is a cell of a table, `None`
    where pandas holds NaN. `Result` is a pipeline step: `Ok` with the table
    it produces or `Err` with the exception it raises, and `:-` lets a later
    step run only after an earlier one returned. */
module Wrappers {

  datatype Option<+T> = None | Some(value: T)

  datatype Result<+R, +E> = Ok(value: R) | Err(error: E) {

    predicate IsFailure() {
      Err?
    }

    function PropagateFailure<U>(): Result<U, E>
      requires Err?
    {
      Err(error)
    }

    function Extract(): R
      requires Ok?
    {
      value
    }
  }
}
