/** Optional values: an attribute or option that the page may leave out. */
module Wrappers {
  datatype Option<T> = None | Some(value: T)
}
