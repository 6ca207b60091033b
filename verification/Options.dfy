/** A value that may be absent: Go's nil pointers and Python's None. */
module Options {
  datatype Option<+T> = None | Some(value: T)
}
