/** Failure-carrying values shared by the model: an optional value and the
    value-or-error reply of a collaborator call. */
module Results {

  /** A value that may be absent; stands for a Go error that may be nil. */
  datatype Option<+T> = None | Some(value: T)

  /** The reply of a call that either produced a value or failed with an error. */
  datatype Result<+T, +E> = Success(value: T) | Failure(error: E)
}
