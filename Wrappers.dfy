/** Optional values: a key that a partial record may or may not carry. */
module Wrappers {
  datatype Option<+T> = None | Some(value: T)
}
