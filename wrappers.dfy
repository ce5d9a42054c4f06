/** Optional values: a field that the JavaScript object may lack (`undefined`). */
module Wrappers {
  datatype Option<+T> = None | Some(value: T)
}
