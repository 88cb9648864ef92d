/** The optional-value type used for the unifier's "mapping or None" result. */
module Wrappers {

  /** `None` stands for Python's `None` return; `Some(v)` for a genuine value. */
  datatype Option<+T> = None | Some(value: T)
}
