/** The optional value shared by the client and server models. */
module Wrappers {
  datatype Option<T> = None | Some(value: T)
}
