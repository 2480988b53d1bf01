/** Failure-compatible wrappers shared by the contract model and the client model. */
module Outcomes {

  /** A value that may be missing: JavaScript's `null`/`undefined`, or a failed ledger call. */
  datatype Option<+T> = None | Some(value: T)

  /** The outcome of a contract call: the new world, or the reason the EVM reverted it. */
  datatype Result<+T, +E> = Ok(value: T) | Err(error: E)
}
