/** An optional value: a JavaScript `T | undefined`. */
module Options {

  datatype Option<+T> = None | Some(value: T)
}
