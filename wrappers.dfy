/** Optional values: a missing query parameter, a skipped query, a board that did not load. */
module Wrappers {
  datatype Option<+T> = None | Some(value: T)
}
