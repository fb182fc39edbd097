/** Optional values, standing in for the NULL pointers and absent results of the C++ code. */
module Wrappers {

  datatype Option<+T> = None | Some(value: T)
}
