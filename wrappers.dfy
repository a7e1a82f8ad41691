/** Small datatypes shared by every module of the model. */
module Wrappers {
  /** A value that may be absent: JavaScript's `null` / `undefined`. */
  datatype Option<T> = None | Some(value: T)

  /**
   * How an awaited call settles: it resolves with a value or rejects with
   * the message of the error it throws.
   */
  datatype Settled<T> = Resolved(value: T) | Rejected(message: string)
}
