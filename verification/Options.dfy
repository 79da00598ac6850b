/** The conventional optional value, standing for Go's nil values and (value, ok) pairs. */
module Options {

  datatype Option<+T> = None | Some(value: T)
}
