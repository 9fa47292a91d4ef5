/** Optional values: `None` stands for a missing value or for a call that would fail. */
module Wrappers {

  datatype Option<+T> = None | Some(value: T)
}
