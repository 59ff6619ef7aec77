/** Optional values: an absent building, an absent room, a number that does not parse. */
module Wrappers {
  datatype Option<+T> = None | Some(value: T)
}
