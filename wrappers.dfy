/** The Some/None datatype standing in for Python's `None` return values. */
module Wrappers {

  datatype Option<+T> = None | Some(value: T)
}
