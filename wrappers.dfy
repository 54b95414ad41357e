/** A value that may be absent: a missing catalog entry, a null query
    result, a backend call that returned no row. */
module Wrappers {

  datatype Option<T> = None | Some(value: T)
}
