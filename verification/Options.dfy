/** An optional value, for what the program spells `T | None`. */
module Options {
  datatype Option<+T> = None | Some(value: T)
}
