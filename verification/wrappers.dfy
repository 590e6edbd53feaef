/** Values that may be absent: the GUI domain of a source domain, and the
    default target of an ask rule. */
module Wrappers {

  datatype Option<+T> = None | Some(value: T)

  /** The value held in `o`, or `fallback` when there is none. */
  function ValueOr<T>(o: Option<T>, fallback: T): T
  {
    if o.Some? then o.value else fallback
  }
}
