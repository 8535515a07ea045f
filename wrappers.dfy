/** Small failure-carrying datatypes shared by the whole model.

    - Option<T>: a value that may be absent (Rust's Option, Python's None).
    - Result<T, E>: Rust's Result, kept wherever the program itself returns one.
    - Outcome<T>: a computation that either returns a value or aborts the
      process (a Rust panic, unwrap on None/Err, todo!, an assert! that fails, or
      an uncaught Python exception). The program never recovers from these, so
      the model carries them as values instead of excluding them by requires.
 */
module Wrappers {

  datatype Option<+T> = None | Some(value: T)

  datatype Result<+T, +E> = Ok(value: T) | Err(error: E)

  datatype Outcome<+T> = Value(value: T) | Panic(reason: string)
}
