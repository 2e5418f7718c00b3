/** Optional values: JavaScript's `undefined` alternative. */
module Wrappers {

  datatype Option<+T> = None | Some(value: T)
}
