/** The optional fields of a chart trace (an absent `error_y` or `opacity`). */
module Wrappers {

  datatype Option<+T> = None | Some(value: T)
}
