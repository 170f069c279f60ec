/** Optional values: a JavaScript property that may be absent, a call that may not happen. */
module Wrappers {
  datatype Option<+T> = None | Some(value: T)
}
