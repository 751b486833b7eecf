/** Unsigned 8-bit sample arithmetic as NumPy performs it on `uint8` arrays:
    the exact result is truncated to its low eight bits, so it wraps around
    modulo 256. Dafny's `%` is Euclidean (never negative), which makes
    `x % 256` that truncation for every integer `x`, negative ones included. */
module U8 {

  const Modulus: int := 256

  /** A value a `uint8` array element can hold. */
  predicate IsU8(x: int) {
    0 <= x < Modulus
  }

  /** Element-wise `a + b` on two `uint8` samples. */
  function AddU8(a: int, b: int): (r: int)
    requires IsU8(a) && IsU8(b)
    ensures IsU8(r)
    ensures a + b < Modulus ==> r == a + b
    ensures a + b >= Modulus ==> r == a + b - Modulus
  {
    (a + b) % Modulus
  }

  /** Element-wise `a - b` on two `uint8` samples: a negative difference
      wraps around to `a - b + 256` instead of saturating at zero. */
  function SubU8(a: int, b: int): (r: int)
    requires IsU8(a) && IsU8(b)
    ensures IsU8(r)
    ensures a >= b ==> r == a - b
    ensures a < b ==> r == a - b + Modulus
    ensures a == b ==> r == 0
    // The wrap loses nothing: adding the subtrahend back restores the minuend.
    ensures AddU8(r, b) == a
  {
    (a - b) % Modulus
  }
}
