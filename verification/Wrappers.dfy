/** The one optional value type every module uses. */
module Wrappers {
  datatype Option<T> = None | Some(value: T)
}
