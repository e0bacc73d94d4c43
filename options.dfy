/** The optional value used for the component's nullable state (the picked file). */
module Options {
  datatype Option<+T> = None | Some(value: T)
}
