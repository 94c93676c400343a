/** The usual Some/None wrapper, standing for a Java `null` or a JavaScript `null`/`undefined`. */
module Options {
  datatype Option<+T> = None | Some(value: T)
}
