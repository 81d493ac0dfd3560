/** Option, for operations whose source has a "no value" outcome. */
module Wrappers {
  datatype Option<+T> = None | Some(value: T)
}
