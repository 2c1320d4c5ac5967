/** One outcome of math/rand. */
module Rand {

  /** rand.Intn(n); every value below n is an outcome, and any other number stands for 0. */
  function Intn(n: int, draw: int): (r: int)
    requires n > 0
    ensures 0 <= r < n && (0 <= draw < n ==> r == draw)
  {
    if 0 <= draw < n then draw else 0
  }
}
