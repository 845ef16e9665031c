/** An optional value: what a JavaScript call that may throw or return nothing yields in this model. */
module Wrappers {
  datatype Option<+T> = None | Some(value: T)
}
