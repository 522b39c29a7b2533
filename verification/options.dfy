/** The conventional optional value: a C pointer that may be NULL.  And the larger of two numbers. */
module Options {
  datatype Option<+T> = None | Some(value: T)

  function Max(a: int, b: int): int {
    if a > b then a else b
  }
}
