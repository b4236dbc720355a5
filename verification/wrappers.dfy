/** Optional values: a missing route parameter, an empty hover slot, an absent session entry. */
module Wrappers {
  datatype Option<+T> = None | Some(value: T)
}
