/** Optional values: a JavaScript `null`/`undefined`/`NaN` in the source becomes `None` here. */
module Wrappers {
  datatype Option<+T> = None | Some(value: T)
}
