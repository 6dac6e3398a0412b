/** The Some/None datatype used for the viewer's partial operations
    (decoding a line, converting a field to a number, a marker that is not shown). */
module Wrappers {
  datatype Option<+T> = None | Some(value: T)
}
