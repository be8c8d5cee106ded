/** Failure-compatible wrappers and the assembler's error record.

    `Error.HackError` is the record of error.rs: an optional source line
    number, an optional source line and a message. The source's
    `hack_report!` fills both options from the parser's context and
    `hack_report_less!` leaves them empty.

    `Error.Panic` stands for the places where the Rust program aborts
    instead of returning an error: a vector indexed out of bounds or an
    `unwrap` of `None`. Modelling them as a value lets every operation stay
    total, and lets lemmas say exactly which inputs reach them. */
module Errors {

  datatype Option<+T> = None | Some(value: T)

  datatype Error =
    | HackError(sourceLineNum: Option<nat>, sourceLine: Option<string>, comment: string)
    | Panic(reason: string)

  /** The outcome of an operation that returns `Result<(), HackError>`. */
  datatype Outcome = Pass | Fail(error: Error)

  /** The outcome of an operation that returns `Result<T, HackError>`. */
  datatype Result<+T> = Success(value: T) | Failure(error: Error)

  /** Reason of the panic raised by `v[i]` with `i >= v.len()`. */
  const IndexOutOfBounds: string := "index out of bounds"

  /** Reason of the panic raised by `Option::unwrap` on `None`. */
  const UnwrapNone: string := "called `Option::unwrap()` on a `None` value"
}
