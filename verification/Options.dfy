/** A value that may be missing: Python's None, an absent key, an absent header. */
module Options {
  datatype Option<+T> = None | Some(value: T)
}
