/** Optional values: the model's stand-in for Go's nil interfaces and pointers. */
module Wrappers {

  datatype Option<+T> = None | Some(value: T)
}
