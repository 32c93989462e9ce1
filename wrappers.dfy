/** The optional value used wherever the source has "a value or null/undefined". */
module Wrappers {

  datatype Option<T> = None | Some(value: T)
}
