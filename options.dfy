/** The optional value used wherever the runtime uses a possibly-null reference. */
module Options {

  datatype Option<+T> = None | Some(value: T)
}
