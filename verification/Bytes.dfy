/** Bytes, big-endian integers and the small datatypes shared by every module. */
module Bytes {

  datatype Option<+T> = None | Some(value: T)

  type byte = b: int | 0 <= b < 256
  type bytes = seq<byte>

  const TWO_8: int := 0x100
  const TWO_16: int := 0x1_0000
  const TWO_32: int := 0x1_0000_0000
  const TWO_63: int := 0x8000_0000_0000_0000
  const TWO_64: int := 0x1_0000_0000_0000_0000

  type uint64 = n: int | 0 <= n < 0x1_0000_0000_0000_0000
  type int64 = n: int | -0x8000_0000_0000_0000 <= n < 0x8000_0000_0000_0000

  function U16(n: int): (r: bytes)
    requires 0 <= n < TWO_16
    ensures |r| == 2
  {
    [n / 0x100, n % 0x100]
  }

  function U32(n: int): (r: bytes)
    requires 0 <= n < TWO_32
    ensures |r| == 4
  {
    U16(n / TWO_16) + U16(n % TWO_16)
  }

  function U64(n: int): (r: bytes)
    requires 0 <= n < TWO_64
    ensures |r| == 8
  {
    U32(n / TWO_32) + U32(n % TWO_32)
  }

  function FromU16(b: bytes): (n: int)
    requires |b| == 2
    ensures 0 <= n < TWO_16
  {
    b[0] as int * 0x100 + b[1] as int
  }

  function FromU32(b: bytes): (n: int)
    requires |b| == 4
    ensures 0 <= n < TWO_32
  {
    FromU16(b[..2]) * TWO_16 + FromU16(b[2..])
  }

  lemma U16RoundTrip(n: int)
    requires 0 <= n < TWO_16
    ensures FromU16(U16(n)) == n
  {
  }

  lemma U32RoundTrip(n: int)
    requires 0 <= n < TWO_32
    ensures FromU32(U32(n)) == n
  {
    var hi, lo := n / TWO_16, n % TWO_16;
    assert U32(n)[..2] == U16(hi) && U32(n)[2..] == U16(lo);
    U16RoundTrip(hi);
    U16RoundTrip(lo);
  }

  /** The most significant byte comes first. */
  lemma {:induction false} BigEndian(n: int)
    requires 0 <= n < TWO_32
    ensures U32(n) == [n / 0x100_0000, n / 0x1_0000 % 0x100, n / 0x100 % 0x100, n % 0x100]
  {
    assert n / TWO_16 / 0x100 == n / 0x100_0000 && n % TWO_16 / 0x100 == n / 0x100 % 0x100;
  }

  /** The C casts `(int64_t)u` and `(uint64_t)i` on a two's complement machine. */
  function ToSigned(u: uint64): (i: int64) {
    if u < TWO_63 then u else u - TWO_64
  }

  function ToUnsigned(i: int64): (u: uint64)
    ensures ToSigned(u) == i
  {
    if i < 0 then i + TWO_64 else i
  }
}
