/** The option type that every module uses. */
module Wrappers {
  datatype Option<T> = None | Some(value: T)
}
