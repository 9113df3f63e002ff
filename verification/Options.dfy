/** The optional values of the program's records. */
module Options {

  datatype Option<+T> = None | Some(value: T)
}
