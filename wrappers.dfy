/** A possibly-absent value, standing for a `unique_ptr` that may be null. */
module Wrappers {

  datatype Option<+T> = None | Some(value: T)
}
