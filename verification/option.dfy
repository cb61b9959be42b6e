/** The optional value the components use where JavaScript has `null` or
    `undefined`. */
module Options {

  datatype Option<T> = None | Some(value: T)
}
