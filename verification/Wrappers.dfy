/** Optional values, used where the source uses a pointer that may be NULL. */
module Wrappers {
  datatype Option<+T> = None | Some(value: T)
}
