/** Optional values, for "no match" and "no value" results. */
module Wrappers {
  datatype Option<+T> = None | Some(value: T)
}
