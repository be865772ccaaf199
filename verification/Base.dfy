/** The one datatype every other module shares. */
module Base {
  datatype Option<+T> = None | Some(value: T)
}
