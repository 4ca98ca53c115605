/** Optional values, used wherever the library has an empty pointer, an
    unset std::optional or a string position of npos. */
module Wrappers {
  datatype Option<+T> = None | Some(value: T)
}
