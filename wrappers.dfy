/** Optional values: a JavaScript `undefined` or `null` is `None`. */
module Wrappers {

  datatype Option<+T> = None | Some(value: T)
}
