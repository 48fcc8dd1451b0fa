/** The colour quantiser: a posterised 32-bit RGB value from an iteration
    count, computed with Java `int` semantics. Colours are `bv32`, the bit
    pattern of the Java `int` that the source hands to the image buffer. */
module Quantizer {
  import opened Config

  /** The values of a Java `int`. */
  type JavaInt = n: int | -0x8000_0000 <= n < 0x8000_0000

  /** Base pattern 0b011011100001100101101000. */
  const Base: bv32 := 0x6E_1968
  /** Banding mask 0b000000000000010101110111. */
  const Mask: bv32 := 0x00_0577
  /** `Color.BLACK.getRGB()`: opaque black, alpha bits set. */
  const Black: bv32 := 0xFF00_0000

  /** Bit `i` of `x` is set (bit 0 is the least significant). */
  predicate Bit(x: bv32, i: bv5) {
    (x >> i) & 1 == 1
  }

  /** Java's `/` on `int`: the quotient truncated toward zero
      (Java Language Specification, section 15.17.2). */
  function JavaDiv(n: int, d: int): (q: int)
    requires d > 0
    ensures 0 <= n ==> 0 <= q * d <= n < q * d + d
    ensures n < 0 ==> q * d - d < n <= q * d <= 0
  {
    if n >= 0 then
      EuclideanDivBounds(n, d);
      n / d
    else
      EuclideanDivBounds(-n, d);
      -((-n) / d)
  }

  lemma EuclideanDivBounds(m: int, d: int)
    requires m >= 0 && d > 0
    ensures 0 <= (m / d) * d <= m < (m / d) * d + d
  {
  }

  /** The shift distance Java uses for an `int` shift by `n`: only the
      low five bits of `n` count, which is `n` modulo 32. */
  function ShiftCount(n: int): bv5
  {
    (n % 32) as bv5
  }

  /** Java's `<<` on `int` (Java Language Specification, section 15.19):
      bit `i` of the result is bit `i - s` of `x`, where `s` is the shift
      count modulo 32; the low `s` bits are zero and the bits shifted past
      bit 31 are lost. */
  function JavaShl(x: bv32, n: int): (r: bv32)
    ensures forall i: bv5 :: Bit(r, i) <==> ShiftCount(n) <= i && Bit(x, i - ShiftCount(n))
  {
    ShiftedBits(x, ShiftCount(n), x << ShiftCount(n));
    x << ShiftCount(n)
  }

  lemma ShiftedBits(x: bv32, s: bv5, r: bv32)
    requires r == x << s
    ensures forall i: bv5 :: Bit(r, i) <==> s <= i && Bit(x, i - s)
  {
  }

  /** makeColor: black for a point inside the set, otherwise the base
      pattern with the mask OR'd on, shifted by `iterCount / 13`. */
  function MakeColor(iterCount: JavaInt): (r: bv32)
    ensures r == Black <==> iterCount == MaxIter
    ensures iterCount != MaxIter ==> r & Base == Base
  {
    var shiftMag := JavaDiv(iterCount, 13);
    if iterCount == MaxIter then Black else Base | JavaShl(Mask, shiftMag)
  }

  /** Counts in one block of 13 share one colour. */
  lemma ColorConstantOnBlocks(a: JavaInt, b: JavaInt)
    requires a != MaxIter && b != MaxIter
    requires JavaDiv(a, 13) == JavaDiv(b, 13)
    ensures MakeColor(a) == MakeColor(b)
  {
  }

  /** Shift magnitudes that agree modulo 32 give the same colour. */
  lemma ColorRepeatsEvery32Blocks(a: JavaInt, b: JavaInt)
    requires a != MaxIter && b != MaxIter
    requires JavaDiv(a, 13) % 32 == JavaDiv(b, 13) % 32
    ensures MakeColor(a) == MakeColor(b)
  {
  }

  /** Counts 0..12 OR the mask on unshifted. */
  lemma FirstBlockColor(n: JavaInt)
    requires 0 <= n < 13
    ensures MakeColor(n) == Base | Mask == 0x6E_1D7F
  {
  }

  /** Counts 416..428 give shift magnitude 32, which Java reduces to 0:
      the colour of count 0, the mask unshifted. */
  lemma ColorWrapsAt416(n: JavaInt)
    requires 416 <= n <= 428
    ensures MakeColor(n) == MakeColor(0) == Base | Mask
  {
  }
}
