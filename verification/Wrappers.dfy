/** Outcomes of the operations modelled in this project. */
module Wrappers {

  datatype Option<+T> = None | Some(value: T)

  /** The error classes an inner-thread session reports to its caller. */
  datatype Error =
    | InvalidContext
    | InvalidState
    | InvalidRecord
    | AuthenticationFailed
    | LimitReached
    | PlaintextTooLarge
    | Crypto

  datatype Result<+T> = Ok(value: T) | Err(error: Error)
}
