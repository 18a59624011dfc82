/** Types shared by every component of the model. */
module Common {

  /** Identifiers (participants, meetings, routers, transports, ...) are compared for exact equality. */
  type Id = string

  datatype Option<+T> = None | Some(value: T)

  datatype Result<+T, +E> = Success(value: T) | Failure(error: E)
}
