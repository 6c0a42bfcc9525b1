/** The optional value used wherever the program returns `None` or looks a key up with `.get`. */
module Wrappers {
  datatype Option<T> = None | Some(value: T)
}
