/** A value that may be missing: a nil pointer, slice or interface. */
module Options {
  datatype Option<+T> = None | Some(value: T)
}
