/** The optional value used for lookups, parses and the storage slot. */
module Wrappers {
  datatype Option<+T> = None | Some(value: T)
}
