/** The optional value used for a cache that may not have been written yet. */
module Wrappers {

  datatype Option<+T> = None | Some(value: T)
}
