/** Optional values: the model of a .NET reference or nullable that may be null. */
module Wrappers {
  datatype Option<+T> = None | Some(value: T)
}
