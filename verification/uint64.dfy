/** Go's `uint64` arithmetic: every `+` and `-` on such values wraps modulo 2^64.
    The accounting counters for threads and memory, and the worker's capacities,
    are all of this width. */
module UInt64 {

  const MODULUS: int := 0x1_0000_0000_0000_0000

  type u64 = x: int | 0 <= x < MODULUS

  /** `a + b` on uint64: the true sum reduced modulo 2^64, and the true sum
      itself whenever that fits. */
  function WrapAdd(a: u64, b: u64): (r: u64)
    ensures r == (a + b) % MODULUS
    ensures a + b < MODULUS ==> r == a + b
  {
    if a + b < MODULUS then a + b else a + b - MODULUS
  }

  /** `a - b` on uint64: the true difference reduced modulo 2^64, and the true
      difference itself whenever it is not negative. */
  function WrapSub(a: u64, b: u64): (r: u64)
    ensures r == (a - b) % MODULUS
    ensures b <= a ==> r == a - b
  {
    if b <= a then a - b else a - b + MODULUS
  }

  lemma AddSubCommute(a: u64, x: u64, y: u64)
    ensures WrapSub(WrapAdd(a, y), x) == WrapAdd(WrapSub(a, x), y)
  {
  }
}
