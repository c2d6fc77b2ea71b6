/** Failure-compatible result type for the exceptions the engine raises. */
module Wrappers {

  /**
   * The kinds of exception the modelled code can end in. Each is named after
   * the .NET exception it stands for; where the array library's behaviour is
   * not visible (an element read from an empty array), the nearest kind is used.
   */
  datatype Error =
    | InvalidArgument(msg: string)   // an explicit `throw new Exception(...)` in the source
    | ArgumentOutOfRange             // `Enumerable.Range` or `Enumerable.Repeat` given a negative count
    | IndexOutOfRange                // an array or shape index outside its bounds
    | ShapeMismatch                  // the array engine rejects incompatible shapes
    | NullReference                  // a dereference of an absent (null) value
    | DivideByZero                   // an integer division by zero

  datatype Option<+T> = None | Some(value: T)

  datatype Result<+T> = Success(value: T) | Failure(error: Error) {
    predicate IsFailure() { Failure? }

    function PropagateFailure<U>(): Result<U>
      requires Failure?
    {
      Failure(error)
    }

    function Extract(): T
      requires Success?
    {
      value
    }
  }
}
