/** Shared value types: an optional value, a result, and the exceptions the tool raises. */
module Base {

  datatype Option<+T> = None | Some(value: T)

  /** The two exception classes the commands and the factory throw, with what caused them. */
  datatype Error = InvalidArgument(cause: Cause) | Runtime(cause: Cause)

  datatype Cause =
    | AmbiguousInputType            // no --in and the input file ends in .xml
    | AmbiguousOutputType           // no --out and the output file ends in .xml
    | InputFileMissing
    | OutputFileExists
    | OutputNotWritable
    | UndefinedOptions(names: set<string>)
    | MissingOptions(names: set<string>)
    | UnknownSourceType
    | UnknownWriterType
    | UnknownDirection

  datatype Result<+T> = Success(value: T) | Failure(error: Error) {
    predicate IsFailure() { Failure? }

    function PropagateFailure<U>(): Result<U>
      requires Failure?
    {
      Failure(error)
    }

    function Extract(): T
      requires Success?
    {
      value
    }
  }

  function Min(a: int, b: int): int { if a <= b then a else b }

  function Max(a: int, b: int): int { if a >= b then a else b }
}
