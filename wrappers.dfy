/** The result of a dictionary lookup: the stored value, or nothing (Python's KeyError). */
module Wrappers {

  datatype Option<+T> = None | Some(value: T)
}
