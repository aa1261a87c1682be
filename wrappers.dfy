/** Optional values: a field or argument that may be absent (`undefined` in the source). */
module Wrappers {

  datatype Option<+T> = None | Some(value: T)
}
