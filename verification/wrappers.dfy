/** Optional values: JavaScript's `undefined` / `null` where the workspace reads a possibly missing entry. */
module Wrappers {
  datatype Option<+T> = None | Some(value: T)
}
