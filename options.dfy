/** The optional value used wherever the source returns `null` or leaves a field `undefined`. */
module Options {
  datatype Option<+T> = None | Some(value: T)
}
