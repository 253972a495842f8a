/** The optional value shared by the models: a Go pointer that may be nil. */
module Options {
  datatype Option<+T> = None | Some(value: T)
}
