/** Failure-carrying wrappers shared by the ledger model. */
module Results {

  /** A value that may be absent (a SQL NULL, a missing argument, a failed parse). */
  datatype Option<+T> = None | Some(value: T)

  /** The result of a check that either yields a value or names what failed. */
  datatype Result<+T, +E> = Ok(value: T) | Err(error: E)

  /** The result of a mutation that returns nothing on success. */
  datatype Outcome<+E> = Pass | Fail(error: E)
}
