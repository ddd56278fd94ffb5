/** Optional values: a C result that may be NULL. */
module Wrappers {
  datatype Option<+T> = None | Some(value: T)
}
