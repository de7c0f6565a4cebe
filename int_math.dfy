/** Small integer helpers shared by the game modules. */
module IntMath {

  /** Python's `max` on two integers. */
  function Max(a: int, b: int): (m: int)
    ensures m >= a && m >= b && (m == a || m == b)
  {
    if a >= b then a else b
  }
}
