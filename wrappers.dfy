/** Optional values, for JavaScript's `undefined`/`null` results and for calls that may throw. */
module Wrappers {

  datatype Option<+T> = None | Some(value: T)
}
