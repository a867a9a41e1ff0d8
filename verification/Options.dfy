/** The one optional-value datatype every module shares. */
module Options {
  datatype Option<+T> = None | Some(value: T)
}
