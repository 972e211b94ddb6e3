/** The Option datatype the store's lookups return: Python's `None` or a value. */
module Wrappers {

  datatype Option<+T> = None | Some(value: T)
}
