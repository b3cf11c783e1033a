/** Option and Result, with the .NET exceptions that the modelled code raises or catches. */
module Wrappers {

  /** A nullable value: `None` stands for C#'s null. */
  datatype Option<+T> = None | Some(value: T) {
    function GetOr(default: T): T {
      match this
      case Some(v) => v
      case None => default
    }

    /** C#'s `a ?? b`. */
    function OrElse(other: Option<T>): Option<T> {
      if Some? then this else other
    }
  }

  /** The exceptions that the modelled members raise. */
  datatype Exception =
    | NullReference
    | InvalidCast
    | KeyNotFound
    | DuplicateKey        // ArgumentException from Dictionary.Add / ToDictionary
    | ArgumentNull
    | Format              // FormatException from a strict numeric parse
    | InvalidOperation    // Enumerable.First on no match, Nullable.Value on null
    | NotSupported(message: string)
    | NotFound            // NotFoundException from a platform call answered with 404

  /** The outcome of a member that may throw. */
  datatype Result<+T> = Ok(value: T) | Err(error: Exception) {
    predicate IsFailure() {
      Err?
    }

    function PropagateFailure<U>(): Result<U>
      requires Err?
    {
      Err(error)
    }

    function Extract(): T
      requires Ok?
    {
      value
    }
  }
}
