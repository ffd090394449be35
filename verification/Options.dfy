/** The optional value that several modules use where the program has None. */
module Options {
  datatype Option<+T> = None | Some(value: T)
}
