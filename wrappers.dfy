/** The optional value used wherever the storefront's code works with `null`/`undefined`. */
module Wrappers {
  datatype Option<+T> = None | Some(value: T)
}
