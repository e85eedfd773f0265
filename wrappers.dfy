/** Optional values, for the nullable COM pointers and the failure paths. */
module Wrappers {

  datatype Option<+T> = None | Some(value: T)
}
