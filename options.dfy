/** A value that may be absent: a NULL pointer on the C side. */
module Options {

  datatype Option<+T> = None | Some(value: T)
}
