/** The optional value used for fields a response may or may not carry. */
module Wrappers {

  datatype Option<+T> = None | Some(value: T)
}
