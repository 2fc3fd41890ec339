/** The optional value used by every table that has a nullable column. */
module Options {
  datatype Option<+T> = None | Some(value: T)
}
