/** The optional value the source returns as `Optional[...]` (a value or None). */
module Wrappers {
  datatype Option<+T> = None | Some(value: T)
}

/** Small integer helpers used by the length and count bounds. */
module Numbers {
  function Min(a: int, b: int): int
  {
    if a <= b then a else b
  }

  /** `max(n, 0)`. */
  function Max0(n: int): nat
  {
    if n < 0 then 0 else n
  }
}
