/** Failure-compatible wrappers shared by every module of the model.

    The annotation processor reports a rejected program element by throwing
    (InvalidElementException for user errors, IllegalStateException,
    IllegalArgumentException, UnsupportedOperationException and the runtime's
    index, empty-collection, null-dereference and cast exceptions for states the
    processor does not expect).  The model returns a `Result` instead, so that
    every error path is an ordinary value that contracts can talk about.
 */
module Wrappers {

  /** A value or nothing; stands for a nullable reference. */
  datatype Option<+T> = None | Some(value: T) {
    predicate IsFailure() { None? }

    function PropagateFailure<U>(): Option<U>
      requires None?
    {
      None
    }

    function Extract(): T
      requires Some?
    {
      value
    }
  }

  /** The exception classes the compiler throws, each with its message. */
  datatype Failure =
    | InvalidElement(message: string)
    | IllegalState(message: string)
    | IllegalArgument(message: string)
    | UnsupportedOperation(message: string)
    | IndexOutOfBounds(message: string)
    | NoSuchElement(message: string)
    | NullPointer(message: string)
    | ClassCast(message: string)
    /** An `IllegalFormatException` of `String.format`; the message is the
        format string the formatter rejected. */
    | IllegalFormat(message: string)

  /** The outcome of an operation that may throw one of the exceptions above. */
  datatype Result<+T> = Ok(value: T) | Err(error: Failure) {
    predicate IsFailure() { Err? }

    function PropagateFailure<U>(): Result<U>
      requires Err?
    {
      Err(error)
    }

    function Extract(): T
      requires Ok?
    {
      value
    }
  }

  /** Fails with an InvalidElement error unless the condition holds. */
  function Need(condition: bool, message: string): (r: Result<()>)
    ensures r.Ok? <==> condition
    ensures r.Err? ==> r.error == InvalidElement(message)
  {
    if condition then Ok(()) else Err(InvalidElement(message))
  }
}
