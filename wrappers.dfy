/** Optional values, for the `.get(key, None)` lookups of the scripts. */
module Wrappers {
  datatype Option<+T> = None | Some(value: T)
}
