/** The optional value used for OS lookups and searches that can fail. */
module Wrappers {
  datatype Option<+T> = None | Some(value: T)
}
