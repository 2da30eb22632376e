/** A value that may be absent, for the source's `None`. */
module Options {
  datatype Option<+T> = None | Some(value: T)
}
