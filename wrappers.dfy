/** Optional values, standing for JavaScript's `undefined` in optional fields. */
module Wrappers {

  datatype Option<+T> = None | Some(value: T)
}
