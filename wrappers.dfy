/** Optional values, used for look-ups and parses that may fail. */
module Wrappers {
  datatype Option<+T> = None | Some(value: T)
}
