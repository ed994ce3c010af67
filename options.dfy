/** Optional values: a request body field that may be absent, a lookup that may find nothing. */
module Options {
  datatype Option<+T> = None | Some(value: T)
}
