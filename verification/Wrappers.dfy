/** The Option datatype used for nullable columns and for a missing row. */
module Wrappers {
  datatype Option<+T> = None | Some(value: T)
}
