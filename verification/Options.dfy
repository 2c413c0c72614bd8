/** Optional values: the source's `None` and everything else. */
module Options {
  datatype Option<T> = None | Some(value: T)
}
