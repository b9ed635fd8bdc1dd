/** What the models share. */
module Values {
  type byte = x: int | 0 <= x < 256

  datatype Option<+T> = None | Some(value: T)
}
