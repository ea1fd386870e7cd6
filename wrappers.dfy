/** Option, the stock wrapper used for nullable columns and missing rows. */
module Wrappers {
  datatype Option<+T> = None | Some(value: T)
}
