/** Optional values, for lookups that may fail. */
module Options {
  datatype Option<+T> = None | Some(value: T)
}
