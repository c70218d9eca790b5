/** The optional value used for absent storage slots, absent hashes and failed parses. */
module Wrappers {

  datatype Option<+T> = None | Some(value: T) {

    /** A `None` stops a `:-` chain. */
    predicate IsFailure() {
      None?
    }

    function PropagateFailure<U>(): Option<U>
      requires None?
    {
      None
    }

    function Extract(): T
      requires Some?
    {
      value
    }
  }

}
