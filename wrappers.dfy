/** Option and settlement wrappers shared by every module of the model. */
module Wrappers {

  datatype Option<+T> = None | Some(value: T)

  /** How a JavaScript promise (or a synchronous call that may throw) ends:
      with a value, or with an exception that propagates to the caller. */
  datatype Settled<+T> = Resolved(value: T) | Rejected

  function Min(a: int, b: int): int { if a <= b then a else b }
}
