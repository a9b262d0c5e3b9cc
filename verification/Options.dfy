/** The optional value used throughout, in place of a null pointer. */
module Options {
  datatype Option<+T> = None | Some(value: T)
}
