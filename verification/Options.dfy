/** The optional value used by every module. */
module Options {
  datatype Option<+T> = None | Some(value: T)
}
