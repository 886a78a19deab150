/** The optional value used for "no record yet", "parse failed" and the like. */
module Options {

  datatype Option<+T> = None | Some(value: T)
}
