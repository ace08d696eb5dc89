/** Optional values, used wherever the C++ code returns "nothing" or throws on a missing entry. */
module Wrappers {
  datatype Option<T> = None | Some(value: T)
}
