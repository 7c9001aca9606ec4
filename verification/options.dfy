/** The optional value every other module uses in place of `undefined` and `null`. */
module Options {
  datatype Option<+T> = None | Some(value: T)
}
