/** The optional value used for Python's `Optional[str]` parameters. */
module Wrappers {

  /** `None` models Python's `None`; `Some(v)` a supplied value (possibly empty). */
  datatype Option<+T> = None | Some(value: T)
}
