/** The Option datatype used for Python's `None`-or-value results and for
    operations that would raise a KeyError in the adapter. */
module Wrappers {

  datatype Option<+T> = None | Some(value: T)
}
