/** Optional values, for fields a compiled payload may omit. */
module Wrappers {

  datatype Option<T> = None | Some(value: T)
}
