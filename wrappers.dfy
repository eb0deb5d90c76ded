/** Small failure-carrying datatypes shared by the other modules. */
module Wrappers {

  /** A value that may be absent: an optional argument left out, or a `null` state value. */
  datatype Option<+T> = None | Some(value: T) {

    /** The wrapped value, or `default` when there is none, as a default parameter replaces an omitted argument. */
    function GetOr(default: T): T {
      match this
      case Some(v) => v
      case None => default
    }
  }

  /**
   * The outcome of an awaited external call (a Solana SDK or AMM service call):
   * it either resolves with a value or rejects, which the caller's `catch` handles.
   */
  datatype CallResult<+T> = Resolved(value: T) | Rejected
}
