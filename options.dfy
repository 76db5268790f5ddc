/** An optional value: stands for the `null`/`undefined` cases of the screen's state. */
module Options {
  datatype Option<+T> = None | Some(value: T)
}
