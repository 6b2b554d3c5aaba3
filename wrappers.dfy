/** The optional value the generators' lookups return. */
module Wrappers {
  datatype Option<+T> = None | Some(value: T)
}
