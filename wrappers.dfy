/** Small value wrappers shared by the whole model. */
module Wrappers {

  /** A value that may be absent: `null`/`undefined` in the client. */
  datatype Option<+T> = None | Some(value: T)

  /** How a promise settles: resolved with a value, or rejected with an
      error whose `message` the client shows. */
  datatype Settled<+T> = Resolved(value: T) | Rejected(message: string)
}
