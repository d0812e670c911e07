/** Small value types shared by every module of the model. */
module Wrappers {

  /** A value or its absence: JavaScript's `null` / `undefined`. */
  datatype Option<+T> = None | Some(value: T)

  /** A thrown value: an `Error` instance with its message, or anything else
      (a FileReader's progress event, a string, ...). */
  datatype Exception = Error(message: string) | NonError

  /** How an awaited promise settles. */
  datatype Settled<+T> = Resolved(value: T) | Rejected(reason: Exception)
}
