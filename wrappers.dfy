/** Optional values, for the source's `undefined`/`null` results and optional arguments. */
module Wrappers {
  datatype Option<+T> = None | Some(value: T)
}
