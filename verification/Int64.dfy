/** Go's int64: arithmetic wraps around at 2^63. */
module Int64 {
  const TWO_63: int := 0x8000_0000_0000_0000

  predicate Fits(x: int) {
    -TWO_63 <= x < TWO_63
  }

  function Wrap64(x: int): (r: int)
    ensures Fits(r)
    ensures Fits(x) ==> r == x
    ensures (x - r) % (2 * TWO_63) == 0
  {
    (x + TWO_63) % (2 * TWO_63) - TWO_63
  }
}
