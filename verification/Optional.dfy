/** A value or nothing: Go's nil pointers and `value, ok` results. */
module Optional {
  datatype Option<+T> = None | Some(value: T)
}
