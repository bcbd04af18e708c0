/** Python's `None`-or-value, as used for fetch results and optional titles. */
module Wrappers {

  datatype Option<+T> = None | Some(value: T)
}
