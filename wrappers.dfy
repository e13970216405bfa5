/** Optional values: a storage slot that may hold no string, a media query that may not exist. */
module Wrappers {

  datatype Option<+T> = None | Some(value: T)
}
