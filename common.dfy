/** Vocabulary shared by the backend and frontend models. */
module Common {

  /** A value that may be missing, as Python's `None` or a dictionary key that is absent. */
  datatype Option<T> = None | Some(value: T)

  /** The outcome of an operation that either yields a value or raises an error. */
  datatype Result<T, E> = Ok(value: T) | Err(error: E)

  /** The outcome of a check that only passes or fails. */
  datatype Outcome<E> = Pass | Fail(error: E)

  /** A calendar date, as a day number; the current date is always passed in as `today`. */
  type Day = int
}
