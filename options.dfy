/** The optional value Rust spells `Option<T>`. */
module Options {
  datatype Option<+T> = None | Some(value: T)
}
