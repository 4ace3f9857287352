/** The optional value used for fields that may not be set yet and for
    parse results; it supports `:-`, which mirrors Rust's `?` on Option. */
module Options {

  datatype Option<+T> = None | Some(value: T) {

    predicate IsFailure() {
      None?
    }

    function PropagateFailure<U>(): Option<U>
      requires None?
    {
      None
    }

    function Extract(): T
      requires Some?
    {
      value
    }
  }
}
