/** Optional values: a parse that may find nothing, an argument that may be absent. */
module Wrappers {
  datatype Option<+T> = None | Some(value: T)
}
