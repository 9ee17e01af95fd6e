/** The optional value used wherever the source has a value that may be null or missing. */
module Options {
  datatype Option<+T> = None | Some(value: T)
}
