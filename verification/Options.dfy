/** The usual optional value, for `null` and `undefined` answers. */
module Options {
  datatype Option<+T> = None | Some(value: T)
}
