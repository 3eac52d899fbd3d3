/** The usual optional value: a row that a query may not find, a field a payload may omit. */
module Options {
  datatype Option<+T> = None | Some(value: T)
}
