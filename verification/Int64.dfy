/** Two's-complement 64-bit arithmetic, as Go's int64 and SQL's bigint compute it. */
module Int64 {

  const TWO63: int := 0x8000_0000_0000_0000
  const TWO64: int := 0x1_0000_0000_0000_0000

  predicate Fits(x: int) {
    -TWO63 <= x < TWO63
  }

  /** The int64 value left by a computation whose exact result is x. */
  function Wrap(x: int): (r: int)
    ensures Fits(r)
    ensures (x - r) % TWO64 == 0
    ensures Fits(x) ==> r == x
  {
    (x + TWO63) % TWO64 - TWO63
  }

  /** Wrapping is a congruence: wrapping an operand first does not change the result. */
  lemma WrapAdd(x: int, y: int)
    ensures Wrap(Wrap(x) + y) == Wrap(x + y)
  {
    var k := (x - Wrap(x)) / TWO64;
    assert x + y + TWO63 == Wrap(x) + y + TWO63 + k * TWO64;
    ModPlusMultiple(Wrap(x) + y + TWO63, k);
  }

  lemma WrapSubtract(x: int, y: int)
    ensures Wrap(x - Wrap(y)) == Wrap(x - y)
  {
    var k := (y - Wrap(y)) / TWO64;
    assert x - Wrap(y) + TWO63 == x - y + TWO63 + k * TWO64;
    ModPlusMultiple(x - y + TWO63, k);
  }

  lemma ModPlusMultiple(a: int, k: int)
    ensures (a + k * TWO64) % TWO64 == a % TWO64
  {
  }

  /** Two exact values wrap alike exactly when they are congruent modulo 2^64. */
  lemma WrapZero(x: int)
    ensures Wrap(x) == 0 <==> x % TWO64 == 0
  {
  }
}
