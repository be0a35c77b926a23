/** Option and Result values used where the source returns None or raises. */
module Wrappers {

  datatype Option<+T> = None | Some(value: T) {

    function GetOr(default: T): T {
      match this
      case Some(v) => v
      case None => default
    }

    /** The value as a list of at most one element. */
    function ToSeq(): seq<T> {
      if Some? then [value] else []
    }
  }

  /** A computation that either yields a value or fails with the message of
      the exception the source raises. */
  datatype Result<+T> = Ok(value: T) | Err(error: string) {

    predicate IsFailure() {
      Err?
    }

    function PropagateFailure<U>(): Result<U>
      requires Err?
    {
      Err(error)
    }

    function Extract(): T
      requires Ok?
    {
      value
    }
  }
}
