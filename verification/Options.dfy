/** A value that may be absent, for nil pointers, nil maps and nil slices. */
module Options {
  datatype Option<+T> = None | Some(value: T)
}
