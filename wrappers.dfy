/** An optional value, for Python's None. */
module Wrappers {

  datatype Option<T> = None | Some(value: T)
}
