/** The optional value used wherever the program produces a pandas NaN
    or a Python None. */
module Wrappers {

  datatype Option<+T> = None | Some(value: T)
}
