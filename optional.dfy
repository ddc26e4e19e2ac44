/** A value that may be missing: Python's `Optional`. */
module Optional {
  datatype Option<T> = None | Some(value: T)
}
