/** Failure-carrying return types. A Python exception is modelled as an
    `Err` / `Fail` whose string is the exception's message. */
module Results {

  datatype Option<T> = None | Some(value: T)

  /** The outcome of an operation that returns a value or raises. */
  datatype Result<T> = Ok(value: T) | Err(error: string)

  /** The outcome of an operation that returns nothing or raises. */
  datatype Outcome = Pass | Fail(error: string)
}
