/** Optional values, for lookups that may miss and calls that may throw. */
module Wrappers {

  datatype Option<+T> = None | Some(value: T)
}
