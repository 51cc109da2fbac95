/** The nullable columns and optional arguments of the control plane. */
module Options {
  datatype Option<+T> = None | Some(value: T)
}
