/** Option and Result, used for Python's `None` and for the exceptions the source raises. */
module Wrappers {
  /** `None` or a value; `var x :- e; ...` stops at the first `None`. */
  datatype Option<T> = None | Some(value: T) {
    predicate IsFailure() { None? }

    function PropagateFailure<U>(): Option<U>
      requires None?
    {
      None
    }

    function Extract(): T
      requires Some?
    {
      value
    }
  }

  datatype Result<T> = Ok(value: T) | Err(error: string)
}
