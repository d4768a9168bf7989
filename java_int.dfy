/** Java's 32-bit `int`, on Dafny's unbounded integers. */
module JavaInts {
  const IntMin: int := -0x8000_0000
  const IntMax: int := 0x7FFF_FFFF

  /** Integer.MIN_VALUE <= v <= Integer.MAX_VALUE. */
  predicate IsInt(v: int)
  {
    IntMin <= v <= IntMax
  }

  /** Java `int` addition: the mathematical sum brought back into range modulo 2^32. */
  function AddInt(a: int, b: int): (r: int)
    ensures IsInt(r)
    ensures (r - (a + b)) % 0x1_0000_0000 == 0
    ensures IsInt(a + b) ==> r == a + b
  {
    (a + b - IntMin) % 0x1_0000_0000 + IntMin
  }

  /** Adding one to Integer.MAX_VALUE gives Integer.MIN_VALUE. */
  lemma MaxPlusOneWraps()
    ensures AddInt(IntMax, 1) == IntMin
  {
  }
}
