/** Option and the library's fallible result type.

    `Result` stands for the library's `Fallible<T>` (an error carries a kind and a
    message). The kernel also aborts with `assert!` and `panic!`; the model reports
    those as an error of kind `Panic`, so that a construction that would abort is a
    visible failure rather than a value. */
module Wrappers {

  datatype Option<+T> = None | Some(value: T) {
    /** `unwrap_or`: the carried value, or `default` when there is none. */
    function GetOr(default: T): T {
      match this
      case Some(v) => v
      case None => default
    }
  }

  /** `MakeTransformation` is the error kind the domain constructors raise;
      `Panic` stands for an `assert!` or `panic!` of the source. */
  datatype ErrorKind = MakeTransformation | Panic

  datatype Error = Error(kind: ErrorKind, message: string)

  datatype Result<+T> = Ok(value: T) | Err(error: Error) {
    predicate IsFailure() {
      Err?
    }

    function PropagateFailure<U>(): Result<U>
      requires Err?
    {
      Err(error)
    }

    function Extract(): T
      requires Ok?
    {
      value
    }
  }
}
