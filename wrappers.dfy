/** Optional values: an absent keyword argument, an element without text, a call that fails. */
module Wrappers {
  datatype Option<+T> = None | Some(value: T)
}
