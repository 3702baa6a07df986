/** Presence or absence of a value: Python's None, and missing dictionary entries. */
module Options {
  datatype Option<+T> = None | Some(value: T)
}
