/** A Go nil-able value: a pointer, an interface or a context lookup that may be absent. */
module Optional {
  datatype Option<+T> = None | Some(value: T)
}
