/** Two small functions on numbers. */
module Numbers {

  function Max(a: int, b: int): (m: int)
    ensures m == a || m == b
    ensures a <= m && b <= m
  {
    if a < b then b else a
  }

  /** A condition as a count. */
  function One(b: bool): int {
    if b then 1 else 0
  }
}
