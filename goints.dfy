/** Go's fixed-width integers, written out over unbounded `int`. Every
    conversion and every arithmetic result wraps modulo 2^width, as Go's
    uint32, uint64 and int64 operations do. */
module GoInts {

  const TWO_32: int := 0x1_0000_0000
  const TWO_64: int := 0x1_0000_0000_0000_0000
  const MAX_U32: int := TWO_32 - 1

  const MAX_I64: int := TWO_64 / 2 - 1

  predicate IsU32(x: int) { 0 <= x < TWO_32 }
  predicate IsU64(x: int) { 0 <= x < TWO_64 }
  predicate IsI64(x: int) { -(MAX_I64 + 1) <= x <= MAX_I64 }

  /** `uint32(x)`: the representative of x modulo 2^32. */
  function U32(x: int): (r: nat)
    ensures IsU32(r)
    ensures IsU32(x) ==> r == x
    ensures (r - x) % TWO_32 == 0
  {
    x % TWO_32
  }

  /** `uint64(x)`: the representative of x modulo 2^64. */
  function U64(x: int): (r: nat)
    ensures IsU64(r)
    ensures IsU64(x) ==> r == x
    ensures (r - x) % TWO_64 == 0
  {
    x % TWO_64
  }

  /** An `int64` result: the two's-complement representative of x modulo
      2^64. */
  function I64(x: int): (r: int)
    ensures IsI64(r)
    ensures IsI64(x) ==> r == x
    ensures (r - x) % TWO_64 == 0
  {
    var u := U64(x);
    if u > MAX_I64 then
      assert (u - TWO_64 - x) % TWO_64 == ((u - x) - TWO_64) % TWO_64;
      u - TWO_64
    else u
  }

  /** Go's integer `/`: the quotient truncated toward zero (Dafny's `/` is
      Euclidean and differs for a negative dividend). */
  function Quo(a: int, b: int): (q: int)
    requires b > 0
    ensures a >= 0 ==> q >= 0 && 0 <= a - q * b < b
    ensures a < 0 ==> q <= 0 && -b < a - q * b <= 0
  {
    if a >= 0 then EuclidBounds(a, b); a / b
    else
      var m := (-a) / b;
      EuclidBounds(-a, b);
      assert a - (-m) * b == -((-a) - m * b);
      -m
  }

  /** Dafny's division of a natural number leaves a remainder below the
      divisor. */
  lemma EuclidBounds(n: int, b: int)
    requires n >= 0 && b > 0
    ensures n / b >= 0 && 0 <= n - (n / b) * b < b
  {
    assert n == b * (n / b) + n % b;
    assert (n / b) * b == b * (n / b);
  }

  /** Integers that agree modulo 2^32 wrap to the same `uint32`. */
  lemma U32Congruent(x: int, y: int)
    requires (x - y) % TWO_32 == 0
    ensures U32(x) == U32(y)
  {
    var d := U32(x) - U32(y);
    assert (d - ((U32(x) - x) - (U32(y) - y) + (x - y))) == 0;
    assert d % TWO_32 == 0;
  }
}
