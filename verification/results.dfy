/** Failure-carrying values shared by the scan-pattern and discovery modules. */
module Results {

  /** A value that may be absent: a collaborator that returns nothing or throws. */
  datatype Option<+T> = None | Some(value: T)

  /** The outcome of a call that either returns a value or aborts with an error. */
  datatype Result<+T, +E> = Ok(value: T) | Err(error: E)
}
