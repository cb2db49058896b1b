/** The optional value used for lookups, parsed addresses and returned errors. */
module Wrappers {

  datatype Option<+T> = None | Some(value: T)
}
