/** Optional values: a C# reference that may be null, or a read that may time out. */
module Wrappers {

  datatype Option<+T> = None | Some(value: T)
}
