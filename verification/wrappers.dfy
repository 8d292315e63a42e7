/** The optional value used for "nothing hit" and "nothing lifted". */
module Wrappers {
  datatype Option<T> = None | Some(value: T)
}
