/** Optional values: a session-state key that may be absent, a reply that may have failed. */
module Wrappers {
  datatype Option<+T> = None | Some(value: T)
}
