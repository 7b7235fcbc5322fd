/** Optional values, used for the link a song request may or may not open. */
module Wrappers {
  datatype Option<+T> = None | Some(value: T)
}
