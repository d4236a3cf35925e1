/** Values shared by the emitter, the event record and the promise. */
module Common {

  /** Python's "a value or None". */
  datatype Option<+T> = None | Some(value: T)

  /** A callback is opaque to the dispatcher: it is known only by its identity. */
  type CallbackId = nat

  /** The Python exceptions that the modelled code can raise. */
  datatype Exception =
    | TypeError   // calling an entry that is None
    | KeyError    // indexing `event_handlers` with an event that has no list

  /** How a call ended: it returned normally, or an exception propagated out of it. */
  datatype Outcome = Returned | Raised(error: Exception)
}
