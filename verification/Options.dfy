/** A value that may be absent: a NULL column, a row that is not there. */
module Options {
  datatype Option<+T> = None | Some(value: T)
}
