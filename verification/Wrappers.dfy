/** Values that may be missing: None in the source's sense. */
module Wrappers {

  datatype Option<T> = None | Some(value: T)
}
