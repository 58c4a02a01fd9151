/** Failure-carrying wrappers shared by the contract and the UI models. */
module Results {

  /** An optional value: a missing storage entry or an absent error message. */
  datatype Option<+T> = None | Some(value: T)

  /** The outcome of a call that either completes with a value or aborts with an error. */
  datatype Result<+T, +E> = Success(value: T) | Failure(error: E)
}
