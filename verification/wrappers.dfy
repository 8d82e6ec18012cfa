/**
 * The absent-or-present value used wherever the launcher code works with a nullable reference, and
 * the outcome of a service call that either answers or throws.
 */
module Wrappers {

  datatype Option<+T> = None | Some(value: T) {

    predicate IsFailure() {
      None?
    }

    function PropagateFailure<U>(): Option<U>
      requires None?
    {
      None
    }

    function Extract(): T
      requires Some?
    {
      value
    }
  }

  /** A service call that either answers or throws (the page swallows the exception). */
  datatype Outcome<+T> = Ok(value: T) | Failed
}
