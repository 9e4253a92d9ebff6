/** The optional value used where the JavaScript source returns `null`. */
module Options {
  datatype Option<T> = None | Some(value: T)
}
