/** Optional values, for lookups that may find nothing and settings that may be unset. */
module Wrappers {
  datatype Option<+T> = None | Some(value: T)
}
