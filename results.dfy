/** Success/failure wrappers for the error paths of the ledger: a Python
    `raise ValueError(...)` becomes a `Failure` or `Fail` value. */
module Results {

  /** A computation that either yields a value or fails with an error. */
  datatype Result<+T, +E> = Success(value: T) | Failure(error: E)

  /** A state change that either completes or is rejected with an error. */
  datatype Outcome<+E> = Pass | Fail(error: E)
}
