/** Error values of the session, and the optional and result wrappers.
    The program propagates every failure with `?` into an `anyhow::Result`; here the
    three kinds of error it can meet are kept apart. */
module Failures {

  /** An error the session can report. */
  datatype Error =
    /** An `anyhow!` message error (the missing-frame guard). */
    | Message(text: string)
    /** A lookup in an OpenCV vector at `index` when the vector holds `length` elements. */
    | OutOfRange(index: nat, length: nat)
    /** Any other failure raised inside the vision library, by its status code. */
    | Cv(code: int)

  /** An optional value, as Rust's `Option<T>`. */
  datatype Option<+T> = None | Some(value: T)

  /** A value or an error, as `anyhow::Result<T>`. */
  datatype Result<+T> = Ok(value: T) | Err(error: Error) {
    predicate IsFailure() { Err? }

    function PropagateFailure<U>(): Result<U>
      requires Err?
    {
      Err(error)
    }

    function Extract(): T
      requires Ok?
    {
      value
    }
  }

  /** The outcome of an operation that returns `anyhow::Result<()>`. */
  datatype Outcome = Pass | Fail(error: Error)
}
