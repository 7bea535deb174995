/** The optional value used for missing request arguments, absent query parameters and lookups. */
module Wrappers {
  datatype Option<+T> = None | Some(value: T)
}
