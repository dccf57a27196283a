module Wrappers {
  /** An optional value: a command-line option that may be absent. */
  datatype Option<+T> = None | Some(value: T)
}
