/** A value that may be absent: an unset field of a document. */
module Wrappers {

  datatype Option<+T> = None | Some(value: T)
}
