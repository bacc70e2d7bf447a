/** Optional values: the `null`-or-value state fields of the board. */
module Wrappers {
  datatype Option<+T> = None | Some(value: T)
}
