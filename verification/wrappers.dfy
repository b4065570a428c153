/** The usual Some/None datatype, used for optional document fields and for
    the outcome of parsing a price written as text. */
module Wrappers {

  datatype Option<+T> = None | Some(value: T)

}
