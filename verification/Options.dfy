/** The optional value every module shares, for Go's nil and for a failed lookup. */
module Options {
  datatype Option<+T> = None | Some(value: T)
}
