/** Optional values: a C pointer that may be NULL, a conversion that may fail. */
module Wrappers {
  datatype Option<+T> = None | Some(value: T)
}
