/** Optional values: the `undefined`-or-value fields and lookups of the front end. */
module Wrappers {

  datatype Option<+T> = None | Some(value: T)
}
