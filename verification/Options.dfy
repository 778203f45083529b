/** A value that may be absent, for Python's `None` and for operations that may yield nothing. */
module Options {
  datatype Option<+T> = None | Some(value: T)
}
