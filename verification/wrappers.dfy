/** Small failure-carrying datatypes shared by the rest of the model. */
module Wrappers {

  /** A value that may be absent: `undefined`/`null` in the original program. */
  datatype Option<+T> = None | Some(value: T) {

    /** The carried value, or `default` when absent. */
    function GetOr(default: T): T
    {
      match this
      case Some(v) => v
      case None => default
    }
  }

  /** How an awaited call to the generation service ends: the promise
      resolves with a value, or it rejects (any thrown error). */
  datatype Settlement<+T> = Resolved(value: T) | Rejected
}
