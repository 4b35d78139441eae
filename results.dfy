/** Failure-compatible wrappers for the exceptions thrown by the cell builder and the
    stack reader. Every `throw` of the library becomes an `Err` carrying one of these kinds. */
module Results {

  /** The error kinds raised by the cell builder (first three) and by the stack reader
      (last two). */
  datatype Error =
    | OutOfRange      // an integer does not fit the field width
    | NegativeAmount  // a coins amount below zero
    | Overflow        // a write would take the cell past its bit capacity
    | StackUnderflow  // a read past the last slot of a result stack
    | TypeMismatch    // a slot read with the reader of another type

  datatype Result<+T> = Ok(value: T) | Err(error: Error) {
    predicate IsFailure() { Err? }

    function PropagateFailure<U>(): Result<U>
      requires Err?
    {
      Err(error)
    }

    function Extract(): T
      requires Ok?
    {
      value
    }
  }

  datatype Option<+T> = None | Some(value: T) {
    predicate IsFailure() { None? }

    function PropagateFailure<U>(): Option<U>
      requires None?
    {
      None
    }

    function Extract(): T
      requires Some?
    {
      value
    }
  }

  /** The outcome of an operation that has no value to return but may fail. */
  datatype Outcome = Pass | Fail(error: Error)
}
