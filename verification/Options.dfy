/** A value that may be absent, with failure propagation. */
module Options {
  datatype Option<+T> = None | Some(value: T) {
    predicate IsFailure() { None? }

    function PropagateFailure<U>(): Option<U>
      requires None?
    {
      Option<U>.None
    }

    function Extract(): T
      requires Some?
    {
      value
    }
  }
}
