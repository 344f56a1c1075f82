/** Python's `None`-or-value, used wherever the source passes an optional argument. */
module Wrappers {

  datatype Option<+T> = None | Some(value: T)

}
