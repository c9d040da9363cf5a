/** The optional value used where the source returns `undefined` for "not found". */
module Options {
  datatype Option<+T> = None | Some(value: T)
}
