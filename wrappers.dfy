/** The NULL-or-value results of the C calls the lookup tool makes. */
module Wrappers {

  /** A value that may be absent, as a C result that may be NULL. */
  datatype Option<+T> = None | Some(value: T)
}
