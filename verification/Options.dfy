/** The one generic value type the other modules share. */
module Options {

  /** A Go value that may be nil, zero, or absent. */
  datatype Option<+T> = None | Some(value: T)
}
