/** The optional value used for the overtime marker and for parsed text. */
module Wrappers {

  datatype Option<T> = None | Some(value: T)
}
