/** Two types that the components share. */
module Wrappers {
  /** A value that may be missing, as a nil pointer or a second result tells in the source. */
  datatype Option<T> = None | Some(value: T)

  /** How a remote operation ends: carried out and answered, not carried out, or carried out without an
      answer. In the last two cases the caller gets an error. */
  datatype Reply = Done | Lost | Unanswered
}
