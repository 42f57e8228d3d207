/** The optional value used wherever the calculator reads a field that may be
    blank (JavaScript's NaN after `parseFloat`) or whose result may be NaN or an
    infinity. */
module Wrappers {

  datatype Option<+T> = None | Some(value: T)
}
