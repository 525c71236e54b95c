/** The clamps both halves of the program use: `std::min` / `std::max` in the
    walker and `Math.min` / `Math.max` in the front ends, on integers. */
module MinMax {

  /** The smaller of two integers: a lower bound of both that is one of them */
  function Min(a: int, b: int): (m: int)
    ensures m <= a && m <= b
    ensures m == a || m == b
  {
    if a < b then a else b
  }

  /** The larger of two integers: an upper bound of both that is one of them */
  function Max(a: int, b: int): (m: int)
    ensures a <= m && b <= m
    ensures m == a || m == b
  {
    if a < b then b else a
  }
}
