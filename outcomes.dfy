/** Shared result types: optional values (Python's None) and the outcome of
    a Python call, which either returns a value or raises an exception. */
module Outcomes {

  /** A value or Python's None. */
  datatype Option<+T> = None | Some(value: T)

  /** The exception kinds the modelled code can raise. */
  datatype Error =
    | KeyError          // a dict has no such key
    | TypeError         // subscript, `in` or iteration on a value that does not support it
    | AttributeError    // `.items()` on something that is not a dict
    | ValueError        // raised explicitly by the client, or by float() on bad text
    | InvalidToken      // the cipher rejects a ciphertext
    | OperationalError  // sqlite: the users table does not exist

  /** What a Python call does: return a value or raise. Failure-compatible, so
      `var x :- F();` propagates an exception as Python does. */
  datatype Outcome<+T> = Value(value: T) | Raised(error: Error) {
    predicate IsFailure() { Raised? }

    function PropagateFailure<U>(): Outcome<U>
      requires Raised?
    {
      Raised(error)
    }

    function Extract(): T
      requires Value?
    {
      value
    }
  }
}
