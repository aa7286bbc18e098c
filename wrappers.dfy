/** Optional values: a nullable reference or an absent token. */
module Wrappers {
  datatype Option<+T> = None | Some(value: T)
}
