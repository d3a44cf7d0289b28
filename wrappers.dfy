/** Optional values: a JavaScript property that may be absent (or falsy) is `None`. */
module Wrappers {
  datatype Option<+T> = None | Some(value: T)
}
