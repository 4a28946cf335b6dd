/** A value that may be missing: a NULL column, a nil pointer, an absent map entry. */
module Options {
  datatype Option<+T> = None | Some(value: T)
}
