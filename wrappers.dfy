/** The optional value used wherever the source may see `null` or `undefined`. */
module Wrappers {

  datatype Option<+T> = None | Some(value: T)
}
