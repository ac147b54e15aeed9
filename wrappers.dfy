/** Optional values: the JavaScript `null` / `undefined` of the page's state and lookups. */
module Wrappers {
  datatype Option<+T> = None | Some(value: T)
}
