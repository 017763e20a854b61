/** Fixed-width integers of the C and Rust boundary, and the `as` casts the
    binding applies when it passes values to the encoder engine and reads
    them back. Dafny integers are unbounded, so each width is a subset type
    and each cast says explicitly what happens to the bits. */
module CTypes {

  const I32_MAX: int := 0x7fff_ffff
  const TWO_POW_32: int := 0x1_0000_0000

  /** C `int` on the supported platforms: 32-bit two's complement. */
  type CInt = x: int | -0x8000_0000 <= x < 0x8000_0000

  type U32 = x: int | 0 <= x < 0x1_0000_0000

  type U8 = x: int | 0 <= x < 0x100

  /** One 16-bit signed PCM sample. */
  type I16 = x: int | -0x8000 <= x < 0x8000

  /** `x as u32` for a `c_int` x: the same 32 bits read as unsigned. */
  function U32OfCInt(x: CInt): (r: U32)
    ensures (r - x) % TWO_POW_32 == 0
    ensures x >= 0 ==> r == x
    ensures x < 0 ==> r > I32_MAX
  {
    if x < 0 then x + 0x1_0000_0000 else x
  }

  /** `x as c_int` for a `u32` x: the same 32 bits read as signed, so every
      value above 2^31 - 1 comes out negative. */
  function CIntOfU32(x: U32): (r: CInt)
    ensures (x - r) % TWO_POW_32 == 0
    ensures x <= I32_MAX ==> r == x
    ensures r < 0 <==> x > I32_MAX
  {
    if x <= 0x7fff_ffff then x else x - 0x1_0000_0000
  }

  /** `x as u8` for a `c_int` x: only the low 8 bits survive. */
  function U8OfCInt(x: CInt): (r: U8)
    ensures (x - r) % 0x100 == 0
    ensures 0 <= x < 0x100 ==> r == x
  {
    x % 0x100
  }

  /** `n as c_int` for a `usize` n: the low 32 bits, read as signed. A length
      above 2^31 - 1 does not reach the engine unchanged. */
  function CIntOfUsize(n: nat): (r: CInt)
    ensures (n - r) % TWO_POW_32 == 0
    ensures n <= I32_MAX ==> r == n
    ensures I32_MAX < n < TWO_POW_32 ==> r < 0
  {
    CIntOfU32(n % 0x1_0000_0000)
  }

  /** A `u32` survives the trip through `c_int` and back. */
  lemma U32RoundTrip(x: U32)
    ensures U32OfCInt(CIntOfU32(x)) == x
  {
  }

  /** A `c_int` survives the trip through `u32` and back. */
  lemma CIntRoundTrip(x: CInt)
    ensures CIntOfU32(U32OfCInt(x)) == x
  {
  }

  /** Two `c_int` values give the same `u8` exactly when they agree in their
      low 8 bits. */
  lemma U8OfCIntSameLowBits(x: CInt, y: CInt)
    ensures U8OfCInt(x) == U8OfCInt(y) <==> (x - y) % 0x100 == 0
  {
  }
}
