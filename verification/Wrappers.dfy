/** The option type that all modules share. */
module Wrappers {
  datatype Option<T> = None | Some(value: T)
}
