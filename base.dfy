/** Values shared by the whole model: Go's nil-able interface values and the error interface. */
module Base {

  /** An interface value that may be nil. */
  datatype Option<+T> = None | Some(value: T)

  /** A non-nil Go `error`: opaque except for the message its `Error()` method returns. */
  datatype Failure = Failure(message: string)
}
