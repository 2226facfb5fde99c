/** Optional values: a JavaScript `null`, `undefined` or empty form field is `None`. */
module Wrappers {
  datatype Option<+T> = None | Some(value: T)
}
