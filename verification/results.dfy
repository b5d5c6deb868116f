/** Failure-carrying wrappers shared by the other modules. */
module Results {

  /** An optional value: Go's nil-able error and the "parsed or not" of url.Parse. */
  datatype Option<+T> = None | Some(value: T)

  /** A value or the reason it could not be produced. */
  datatype Result<+R, +E> = Success(value: R) | Failure(error: E)
}
