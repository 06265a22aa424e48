/** The optional value used wherever the source returns a Swift optional. */
module Wrappers {

  datatype Option<+T> = None | Some(value: T)
}
