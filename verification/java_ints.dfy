/**
 * The fixed-width integer types of the Java code: `int` (32-bit) and `long`
 * (64-bit), with their two's-complement addition and truncating division written
 * out, since Dafny's integers are unbounded and its division is Euclidean.
 */
module JavaInts {

  const Int32Min: int := -0x8000_0000
  const Int32Max: int := 0x7fff_ffff
  const Int64Min: int := -0x8000_0000_0000_0000
  const Int64Max: int := 0x7fff_ffff_ffff_ffff

  /** 2^32, the modulus of `int` arithmetic. */
  const Int32Modulus: int := 0x1_0000_0000

  predicate IsInt32(x: int) {
    Int32Min <= x <= Int32Max
  }

  predicate IsInt64(x: int) {
    Int64Min <= x <= Int64Max
  }

  /** Java `int` */
  type Int32 = x: int | IsInt32(x)

  /** Java `long` */
  type Int64 = x: int | IsInt64(x)

  /**
   * Java `a + b` on two `int`s: the exact sum when it fits, otherwise the unique
   * `int` congruent to it modulo 2^32.
   */
  function AddInt32(a: Int32, b: Int32): (r: Int32)
    ensures IsInt32(a + b) ==> r == a + b
    ensures (r - (a + b)) % Int32Modulus == 0
  {
    var s := a + b;
    assert IsInt32(a) && IsInt32(b);
    if s > Int32Max then s - Int32Modulus
    else if s < Int32Min then s + Int32Modulus
    else s
  }

  /** Addition of two `int`s that clamps to the `int` range instead of wrapping. */
  function SaturatingAddInt32(a: Int32, b: Int32): (r: Int32)
    ensures IsInt32(a + b) ==> r == a + b
    ensures a + b > Int32Max ==> r == Int32Max
    ensures a + b < Int32Min ==> r == Int32Min
  {
    var s := a + b;
    if s > Int32Max then Int32Max
    else if s < Int32Min then Int32Min
    else s
  }

  /** Java integer division `a / b` for a positive divisor: rounds toward zero. */
  function TruncDiv(a: int, b: int): (q: int)
    requires b > 0
    ensures a >= 0 ==> q >= 0 && q * b <= a < q * b + b
    ensures a < 0 ==> q <= 0 && a <= q * b < a + b
  {
    if a >= 0 then a / b else -((-a) / b)
  }
}
