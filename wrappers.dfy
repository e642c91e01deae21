/** Optional values; `None` stands for a Java reference that is null. */
module Wrappers {

  datatype Option<+T> = None | Some(value: T)
}
