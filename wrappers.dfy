/** Optional values, used where the tracker's hash-map lookups may find
    nothing. */
module Wrappers {

  datatype Option<+T> = None | Some(value: T)
}
