/** The Some/None type the other modules use for lookups that may fail. */
module Options {
  datatype Option<+T> = None | Some(value: T)
}
