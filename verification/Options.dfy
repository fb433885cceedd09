/** The optional value returned by lookups and by steps that may have nothing to do. */
module Options {
  datatype Option<+T> = None | Some(value: T)
}
