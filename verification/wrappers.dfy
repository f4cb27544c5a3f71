/** Optional values, the model of Python's `Optional[...]` and of `None` returns. */
module Wrappers {

  datatype Option<+T> = None | Some(value: T)
}
