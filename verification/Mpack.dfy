/**
 * The MessagePack subset of c/third_party/mpack_stub.h and the value codec of c/src/codec.c,
 * as functions on byte sequences.
 *
 * `Enc` is the unbounded encoding of a value tree. A reader is the bytes not yet consumed
 * and the sticky `error` flag. The readers below keep the stub's behaviour on malformed
 * input: peeking past the end sets the flag and reports tag 0, and a failed string read
 * has already consumed its header.
 */
module Mpack {
  import opened Bytes

  datatype Pair = Pair(key: Value, val: Value)

  /** `callwire_value_t`; a double is its 64-bit pattern. */
  datatype Value =
    | Null
    | Bool(b: bool)
    | Int(i: int64)
    | Float(bits: uint64)
    | Str(s: bytes)
    | Bin(d: bytes)
    | Arr(items: seq<Value>)
    | Map(pairs: seq<Pair>)

  // ---------------------------------------------------------------------------
  // Encoding
  // ---------------------------------------------------------------------------

  function EncBool(b: bool): bytes {
    [if b then 0xC3 else 0xC2]
  }

  function EncInt(v: int64): (r: bytes)
    ensures 1 <= |r| <= 9
  {
    if 0 <= v <= 0x7F then [v]
    else if -32 <= v < 0 then [0x100 + v]
    else if v >= 0 then
      if v <= 0xFF then [0xCC, v]
      else if v <= 0xFFFF then [0xCD] + U16(v)
      else if v <= 0xFFFF_FFFF then [0xCE] + U32(v)
      else [0xCF] + U64(v)
    else
      if v >= -0x80 then [0xD0, v + TWO_8]
      else if v >= -0x8000 then [0xD1] + U16(v + TWO_16)
      else if v >= -0x8000_0000 then [0xD2] + U32(v + TWO_32)
      else [0xD3] + U64(v + TWO_64)
  }

  function EncFloat(bits: uint64): bytes {
    [0xCB] + U64(bits)
  }

  /** The length field of the 32-bit forms is the C cast `(uint32_t)len`. */
  function StrHeader(len: nat): (r: bytes)
    ensures 1 <= |r| <= 5
  {
    if len < 32 then [0xA0 + len]
    else if len <= 0xFF then [0xD9, len]
    else if len <= 0xFFFF then [0xDA] + U16(len)
    else [0xDB] + U32(len % TWO_32)
  }

  function EncStr(s: bytes): bytes {
    StrHeader(|s|) + s
  }

  function BinHeader(len: nat): (r: bytes)
    ensures 1 <= |r| <= 5
  {
    if len <= 0xFF then [0xC4, len]
    else if len <= 0xFFFF then [0xC5] + U16(len)
    else [0xC6] + U32(len % TWO_32)
  }

  function EncBin(d: bytes): bytes {
    BinHeader(|d|) + d
  }

  function ArrHeader(count: nat): (r: bytes)
    ensures 1 <= |r| <= 5
  {
    var n := count % TWO_32;
    if n < 16 then [0x90 + n]
    else if n <= 0xFFFF then [0xDC] + U16(n)
    else [0xDD] + U32(n)
  }

  function MapHeader(count: nat): (r: bytes)
    ensures 1 <= |r| <= 5
  {
    var n := count % TWO_32;
    if n < 16 then [0x80 + n]
    else if n <= 0xFFFF then [0xDE] + U16(n)
    else [0xDF] + U32(n)
  }

  function Enc(v: Value): (r: bytes)
    ensures |r| >= 1
  {
    match v
    case Null => [0xC0]
    case Bool(b) => EncBool(b)
    case Int(i) => EncInt(i)
    case Float(bits) => EncFloat(bits)
    case Str(s) => EncStr(s)
    case Bin(d) => EncBin(d)
    case Arr(items) => ArrHeader(|items|) + EncItems(items)
    case Map(pairs) => MapHeader(|pairs|) + EncPairs(pairs)
  }

  function EncItems(vs: seq<Value>): (r: bytes)
    ensures |r| >= |vs|
  {
    if vs == [] then [] else Enc(vs[0]) + EncItems(vs[1..])
  }

  function EncPairs(ps: seq<Pair>): (r: bytes)
    ensures |r| >= |ps|
  {
    if ps == [] then [] else EncPair(ps[0]) + EncPairs(ps[1..])
  }

  function EncPair(p: Pair): (r: bytes)
    ensures |r| >= 1
  {
    Enc(p.key) + Enc(p.val)
  }

  // ---------------------------------------------------------------------------
  // Readers
  // ---------------------------------------------------------------------------

  datatype Rd = Rd(rest: bytes, err: bool)

  /** The outcome of a read attempt: a value or a refusal, and the reader afterwards. */
  datatype Got<+T> = Got(value: T, rd: Rd) | Miss(rd: Rd)

  function Fail(r: Rd): Rd {
    r.(err := true)
  }

  function PeekTag(r: Rd): byte {
    if r.rest == [] then 0 else r.rest[0]
  }

  /** Peeking at the end of the buffer is itself an error. */
  function Peeked(r: Rd): Rd {
    if r.rest == [] then Fail(r) else r
  }

  function Drop(r: Rd, n: nat): Rd {
    if |r.rest| < n then r.(rest := []) else r.(rest := r.rest[n..])
  }

  function ReadRaw(r: Rd, n: nat): Got<bytes> {
    if |r.rest| < n then Miss(Fail(r)) else Got(r.rest[..n], Drop(r, n))
  }

  /** The fixed-width reads return 0 and set the flag when the bytes are not there. */
  function ReadU8(r: Rd): (int, Rd) {
    if |r.rest| < 1 then (0, Fail(r)) else (r.rest[0], Drop(r, 1))
  }

  function ReadU16(r: Rd): (int, Rd) {
    if |r.rest| < 2 then (0, Fail(r)) else (FromU16(r.rest[..2]), Drop(r, 2))
  }

  function ReadU32(r: Rd): (int, Rd) {
    if |r.rest| < 4 then (0, Fail(r)) else (FromU32(r.rest[..4]), Drop(r, 4))
  }

  function ReadU64(r: Rd): (int, Rd) {
    var (hi, r1) := ReadU32(r);
    var (lo, r2) := ReadU32(r1);
    (hi * TWO_32 + lo, r2)
  }

  function Signed(n: int, width: int): int {
    if n < width / 2 then n else n - width
  }

  function TryNil(r: Rd): Got<()> {
    if PeekTag(r) == 0xC0 then Got((), Drop(r, 1)) else Miss(Peeked(r))
  }

  function TryBool(r: Rd): Got<bool> {
    var tag := PeekTag(r);
    if tag == 0xC2 then Got(false, Drop(r, 1))
    else if tag == 0xC3 then Got(true, Drop(r, 1))
    else Miss(Peeked(r))
  }

  predicate IsIntTag(tag: byte) {
    tag <= 0x7F || tag >= 0xE0 || 0xCC <= tag <= 0xD3
  }

  function TryInt(r: Rd): Got<int64> {
    var tag := PeekTag(r);
    var r1 := Drop(Peeked(r), 1);
    if tag <= 0x7F then Got(tag, r1)
    else if tag >= 0xE0 then Got(tag as int - 0x100, r1)
    else if tag == 0xCC then var (n, r2) := ReadU8(r1); Got(n, r2)
    else if tag == 0xCD then var (n, r2) := ReadU16(r1); Got(n, r2)
    else if tag == 0xCE then var (n, r2) := ReadU32(r1); Got(n, r2)
    else if tag == 0xCF then var (n, r2) := ReadU64(r1); Got(Signed(n, TWO_64), r2)
    else if tag == 0xD0 then var (n, r2) := ReadU8(r1); Got(Signed(n, TWO_8), r2)
    else if tag == 0xD1 then var (n, r2) := ReadU16(r1); Got(Signed(n, TWO_16), r2)
    else if tag == 0xD2 then var (n, r2) := ReadU32(r1); Got(Signed(n, TWO_32), r2)
    else if tag == 0xD3 then var (n, r2) := ReadU64(r1); Got(Signed(n, TWO_64), r2)
    else Miss(r)
  }

  /** A single-precision pattern widened to double precision, as the C conversion does; a NaN comes out quiet, with its payload. */
  function Widen(f: int): uint64
    requires 0 <= f < TWO_32
  {
    var sign, exp, man := f / 0x8000_0000, f / 0x80_0000 % 0x100, f % 0x80_0000;
    var s := sign * TWO_63;
    if exp == 0xFF then s + 0x7FF0_0000_0000_0000 + (if 0 < man < 0x40_0000 then man + 0x40_0000 else man) * 0x2000_0000
    else if exp > 0 then s + (exp + 896) * 0x10_0000_0000_0000 + man * 0x2000_0000
    else if man == 0 then s
    else s + WidenSubnormal(man, 897)
  }

  /** Shifts the leading one into the implicit bit, lowering the exponent once a shift. */
  function WidenSubnormal(man: nat, exp: nat): (r: int)
    requires man < 0x100_0000 && exp <= 897
    ensures 0 <= r < 0x7FF0_0000_0000_0000
    decreases exp
  {
    if man >= 0x80_0000 || exp == 0 then exp * 0x10_0000_0000_0000 + man % 0x80_0000 * 0x2000_0000
    else WidenSubnormal(man * 2, exp - 1)
  }

  function TryFloat(r: Rd): Got<uint64> {
    var tag := PeekTag(r);
    if tag == 0xCB then
      var (n, r2) := ReadU64(Drop(r, 1)); Got(n, r2)
    else if tag == 0xCA then
      var (n, r2) := ReadU32(Drop(r, 1)); Got(Widen(n), r2)
    else Miss(Peeked(r))
  }

  function TryStr(r: Rd): (g: Got<bytes>)
    ensures |g.rd.rest| <= |r.rest|
  {
    var tag := PeekTag(r);
    var r1 := Drop(r, 1);
    if 0xA0 <= tag < 0xC0 then ReadRaw(r1, tag - 0xA0)
    else if tag == 0xD9 then var (n, r2) := ReadU8(r1); ReadRaw(r2, n)
    else if tag == 0xDA then var (n, r2) := ReadU16(r1); ReadRaw(r2, n)
    else if tag == 0xDB then var (n, r2) := ReadU32(r1); ReadRaw(r2, n)
    else Miss(Peeked(r))
  }

  function TryBin(r: Rd): (g: Got<bytes>)
    ensures |g.rd.rest| <= |r.rest|
  {
    var tag := PeekTag(r);
    var r1 := Drop(r, 1);
    if tag == 0xC4 then var (n, r2) := ReadU8(r1); ReadRaw(r2, n)
    else if tag == 0xC5 then var (n, r2) := ReadU16(r1); ReadRaw(r2, n)
    else if tag == 0xC6 then var (n, r2) := ReadU32(r1); ReadRaw(r2, n)
    else Miss(Peeked(r))
  }

  function TryArr(r: Rd): (g: Got<nat>)
    ensures |g.rd.rest| <= |r.rest|
    ensures g.Got? ==> |g.rd.rest| < |r.rest| && g.value < TWO_32
  {
    var tag := PeekTag(r);
    var r1 := Drop(r, 1);
    if 0x90 <= tag < 0xA0 then Got(tag - 0x90, r1)
    else if tag == 0xDC then var (n, r2) := ReadU16(r1); Got(n, r2)
    else if tag == 0xDD then var (n, r2) := ReadU32(r1); Got(n, r2)
    else Miss(Peeked(r))
  }

  function TryMap(r: Rd): (g: Got<nat>)
    ensures |g.rd.rest| <= |r.rest|
    ensures g.Got? ==> |g.rd.rest| < |r.rest| && g.value < TWO_32
  {
    var tag := PeekTag(r);
    var r1 := Drop(r, 1);
    if 0x80 <= tag < 0x90 then Got(tag - 0x80, r1)
    else if tag == 0xDE then var (n, r2) := ReadU16(r1); Got(n, r2)
    else if tag == 0xDF then var (n, r2) := ReadU32(r1); Got(n, r2)
    else Miss(Peeked(r))
  }

  // ---------------------------------------------------------------------------
  // decode_value
  // ---------------------------------------------------------------------------

  /** The scalar attempts of `decode_value`, in the source's order. */
  function DecScalar(r: Rd): (g: Got<Value>)
    ensures |g.rd.rest| <= |r.rest|
  {
    match TryNil(r)
    case Got(_, r1) => Got(Null, r1)
    case Miss(r1) =>
      match TryBool(r1)
      case Got(b, r2) => Got(Bool(b), r2)
      case Miss(r2) =>
        match TryInt(r2)
        case Got(i, r3) => Got(Int(i), r3)
        case Miss(r3) =>
          match TryFloat(r3)
          case Got(f, r4) => Got(Float(f), r4)
          case Miss(r4) =>
            match TryStr(r4)
            case Got(s, r5) => Got(Str(s), r5)
            case Miss(r5) =>
              match TryBin(r5)
              case Got(d, r6) => Got(Bin(d), r6)
              case Miss(r6) => Miss(r6)
  }

  function Dec(r: Rd): (g: Got<Value>)
    ensures |g.rd.rest| <= |r.rest|
    decreases |r.rest|, 0, 0
  {
    if r.err then Miss(r) else
    match DecScalar(r)
    case Got(v, r1) => Got(v, r1)
    case Miss(r1) =>
      match TryArr(r1)
      case Got(n, r2) =>
        (match DecItems(n, r2)
         case Got(vs, r3) => Got(Arr(vs), r3)
         case Miss(r3) => Miss(r3))
      case Miss(r2) =>
        match TryMap(r2)
        case Got(n, r3) =>
          (match DecPairs(n, r3)
           case Got(ps, r4) => Got(Map(ps), r4)
           case Miss(r4) => Miss(r4))
        case Miss(r3) => Miss(Fail(r3))
  }

  function DecItems(n: nat, r: Rd): (g: Got<seq<Value>>)
    ensures |g.rd.rest| <= |r.rest|
    decreases |r.rest|, 1, n
  {
    if n == 0 then Got([], r) else
    match Dec(r)
    case Miss(r1) => Miss(r1)
    case Got(v, r1) =>
      match DecItems(n - 1, r1)
      case Miss(r2) => Miss(r2)
      case Got(vs, r2) => Got([v] + vs, r2)
  }

  function DecPairs(n: nat, r: Rd): (g: Got<seq<Pair>>)
    ensures |g.rd.rest| <= |r.rest|
    decreases |r.rest|, 1, n
  {
    if n == 0 then Got([], r) else
    match Dec(r)
    case Miss(r1) => Miss(r1)
    case Got(k, r1) =>
      match Dec(r1)
      case Miss(r2) => Miss(r2)
      case Got(v, r2) =>
        match DecPairs(n - 1, r2)
        case Miss(r3) => Miss(r3)
        case Got(ps, r3) => Got([Pair(k, v)] + ps, r3)
  }

  // ---------------------------------------------------------------------------
  // mpack_skip_value
  // ---------------------------------------------------------------------------

  function SkipScalar(r: Rd): (r': Rd)
    requires r.rest != []
    ensures |r'.rest| <= |r.rest|
  {
    var tag := r.rest[0];
    var r1 := Drop(r, 1);
    if tag <= 0x7F || tag >= 0xE0 || tag == 0xC0 || tag == 0xC2 || tag == 0xC3 then r1
    else if tag == 0xCC || tag == 0xD0 then ReadU8(r1).1
    else if tag == 0xCD || tag == 0xD1 then ReadU16(r1).1
    else if tag == 0xCE || tag == 0xD2 || tag == 0xCA then ReadU32(r1).1
    else if tag == 0xCF || tag == 0xD3 || tag == 0xCB then ReadU64(r1).1
    else if 0xC4 <= tag <= 0xC6 then TryBin(r).rd
    else if 0xA0 <= tag < 0xC0 || 0xD9 <= tag <= 0xDB then TryStr(r).rd
    else Fail(r)
  }

  predicate IsArrTag(tag: byte) {
    0x90 <= tag < 0xA0 || tag == 0xDC || tag == 0xDD
  }

  predicate IsMapTag(tag: byte) {
    0x80 <= tag < 0x90 || tag == 0xDE || tag == 0xDF
  }

  function Skip(r: Rd): (r': Rd)
    ensures |r'.rest| <= |r.rest|
    decreases |r.rest|, 0, 0
  {
    if r.err || r.rest == [] then Fail(r)
    else if IsArrTag(r.rest[0]) then
      var g := TryArr(r);
      SkipMany(g.value, g.rd)
    else if IsMapTag(r.rest[0]) then
      var g := TryMap(r);
      SkipMany(2 * g.value, g.rd)
    else SkipScalar(r)
  }

  /** The loop stops at the first error; a map skips two values a round. */
  function SkipMany(n: nat, r: Rd): (r': Rd)
    ensures |r'.rest| <= |r.rest|
    decreases |r.rest|, 1, n
  {
    if n == 0 || r.err then r else SkipMany(n - 1, Skip(r))
  }
}
