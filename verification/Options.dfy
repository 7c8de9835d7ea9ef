/** The usual optional value: an SQL NULL, a Python None, or something. */
module Options {
  datatype Option<+T> = None | Some(value: T)
}
