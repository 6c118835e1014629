/** The optional value used across the model for nullable pointers and
    lookups that may fail. */
module Wrappers {

  datatype Option<+T> = None | Some(value: T)
}
