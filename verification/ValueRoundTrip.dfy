/** Round trip of the value codec: what is encoded is decoded, and what follows it is left alone. */
module ValueRoundTrip {
  import opened Bytes
  import opened Mpack

  /** No length or count is truncated by the codec's casts to 32 bits. */
  predicate Sized(v: Value) {
    match v
    case Str(s) => |s| < TWO_32
    case Bin(d) => |d| < TWO_32
    case Arr(items) => |items| < TWO_32 && forall x :: x in items ==> Sized(x)
    case Map(pairs) => |pairs| < TWO_32 && forall p :: p in pairs ==> Sized(p.key) && Sized(p.val)
    case _ => true
  }

  predicate SizedAll(vs: seq<Value>) {
    forall x :: x in vs ==> Sized(x)
  }

  predicate SizedPairs(ps: seq<Pair>) {
    forall p :: p in ps ==> Sized(p.key) && Sized(p.val)
  }

  /** Any value whose encoding is shorter than 4 GiB is free of truncation. */
  lemma {:induction false} ShortIsSized(v: Value)
    requires |Enc(v)| < TWO_32
    ensures Sized(v)
    decreases v, 0
  {
    match v
    case Arr(items) =>
      ShortItemsAreSized(items);
    case Map(pairs) =>
      ShortPairsAreSized(pairs);
    case _ =>
  }

  lemma {:induction false} ShortItemsAreSized(vs: seq<Value>)
    requires |EncItems(vs)| < TWO_32
    ensures |vs| < TWO_32 && SizedAll(vs)
    decreases vs, 1
  {
    if vs != [] {
      ShortIsSized(vs[0]);
      ShortItemsAreSized(vs[1..]);
      assert vs == [vs[0]] + vs[1..];
    }
  }

  lemma {:induction false} ShortPairsAreSized(ps: seq<Pair>)
    requires |EncPairs(ps)| < TWO_32
    ensures |ps| < TWO_32 && SizedPairs(ps)
    decreases ps, 1
  {
    if ps != [] {
      ShortPairIsSized(ps[0]);
      ShortPairsAreSized(ps[1..]);
      assert ps == [ps[0]] + ps[1..];
    }
  }

  lemma {:induction false} ShortPairIsSized(p: Pair)
    requires |EncPair(p)| < TWO_32
    ensures Sized(p.key) && Sized(p.val)
    decreases p, 2
  {
    ShortIsSized(p.key);
    ShortIsSized(p.val);
  }

  // ---------------------------------------------------------------------------
  // Reading back each primitive
  // ---------------------------------------------------------------------------

  /** A reader standing at `s` with no error. */
  function At(s: bytes): Rd {
    Rd(s, false)
  }

  lemma {:induction false} ReadU16Back(n: int, rest: bytes)
    requires 0 <= n < TWO_16
    ensures ReadU16(At(U16(n) + rest)) == (n, At(rest))
  {
    U16RoundTrip(n);
    var s := U16(n) + rest;
    assert s[..2] == U16(n) && s[2..] == rest;
  }

  lemma {:induction false} ReadU32Back(n: int, rest: bytes)
    requires 0 <= n < TWO_32
    ensures ReadU32(At(U32(n) + rest)) == (n, At(rest))
  {
    U32RoundTrip(n);
    var s := U32(n) + rest;
    assert s[..4] == U32(n) && s[4..] == rest;
  }

  lemma {:induction false} ReadU64Back(n: int, rest: bytes)
    requires 0 <= n < TWO_64
    ensures ReadU64(At(U64(n) + rest)) == (n, At(rest))
  {
    var hi, lo := n / TWO_32, n % TWO_32;
    assert U64(n) + rest == U32(hi) + (U32(lo) + rest);
    ReadU32Back(hi, U32(lo) + rest);
    ReadU32Back(lo, rest);
  }

  lemma {:induction false} ReadRawBack(s: bytes, rest: bytes)
    ensures ReadRaw(At(s + rest), |s|) == Got(s, At(rest))
  {
    assert (s + rest)[..|s|] == s && (s + rest)[|s|..] == rest;
  }

  /** Dropping the tag byte leaves what followed it. */
  lemma {:induction false} DropTag(tag: byte, s: bytes, rest: bytes)
    ensures Drop(At([tag] + s + rest), 1) == At(s + rest)
    ensures PeekTag(At([tag] + s + rest)) == tag
    ensures Peeked(At([tag] + s + rest)) == At([tag] + s + rest)
  {
    assert ([tag] + s + rest)[1..] == s + rest;
  }

  lemma {:induction false} IntBack(i: int64, rest: bytes)
    ensures TryInt(At(EncInt(i) + rest)) == Got(i, At(rest))
    ensures IsIntTag(EncInt(i)[0])
  {
    var e := EncInt(i);
    assert e == [e[0]] + e[1..];
    DropTag(e[0], e[1..], rest);
    if e[0] <= 0x7F || e[0] >= 0xE0 {
    } else if |e| == 2 {
      assert e[1..] == [e[1]];
      assert ([e[1]] + rest)[1..] == rest;
    } else if |e| == 3 {
      var n := if i >= 0 then i else i + TWO_16;
      assert e[1..] == U16(n);
      ReadU16Back(n, rest);
    } else if |e| == 5 {
      var n := if i >= 0 then i else i + TWO_32;
      assert e[1..] == U32(n);
      ReadU32Back(n, rest);
    } else {
      var n := if i >= 0 then i else i + TWO_64;
      assert e[1..] == U64(n);
      ReadU64Back(n, rest);
    }
  }

  lemma {:induction false} StrHeaderBack(n: nat, tail: bytes)
    requires n < TWO_32
    ensures TryStr(At(StrHeader(n) + tail)) == ReadRaw(At(tail), n)
  {
    var h := StrHeader(n);
    assert h == [h[0]] + h[1..];
    DropTag(h[0], h[1..], tail);
    if |h| == 1 {
      assert h[1..] + tail == tail;
    } else if |h| == 2 {
      assert (h[1..] + tail)[1..] == tail;
    } else if |h| == 3 {
      assert h[1..] == U16(n);
      ReadU16Back(n, tail);
    } else {
      assert h[1..] == U32(n);
      ReadU32Back(n, tail);
    }
  }

  lemma {:induction false} StrBack(s: bytes, rest: bytes)
    requires |s| < TWO_32
    ensures TryStr(At(EncStr(s) + rest)) == Got(s, At(rest))
  {
    assert EncStr(s) + rest == StrHeader(|s|) + (s + rest);
    StrHeaderBack(|s|, s + rest);
    ReadRawBack(s, rest);
  }

  lemma {:induction false} BinHeaderBack(n: nat, tail: bytes)
    requires n < TWO_32
    ensures TryBin(At(BinHeader(n) + tail)) == ReadRaw(At(tail), n)
  {
    var h := BinHeader(n);
    assert h == [h[0]] + h[1..];
    DropTag(h[0], h[1..], tail);
    if |h| == 2 {
      assert (h[1..] + tail)[1..] == tail;
    } else if |h| == 3 {
      assert h[1..] == U16(n);
      ReadU16Back(n, tail);
    } else {
      assert h[1..] == U32(n);
      ReadU32Back(n, tail);
    }
  }

  lemma {:induction false} BinBack(s: bytes, rest: bytes)
    requires |s| < TWO_32
    ensures TryBin(At(EncBin(s) + rest)) == Got(s, At(rest))
  {
    assert EncBin(s) + rest == BinHeader(|s|) + (s + rest);
    BinHeaderBack(|s|, s + rest);
    ReadRawBack(s, rest);
  }

  lemma {:induction false} ArrHeaderBack(n: nat, rest: bytes)
    requires n < TWO_32
    ensures TryArr(At(ArrHeader(n) + rest)) == Got(n, At(rest))
  {
    var h := ArrHeader(n);
    assert h == [h[0]] + h[1..];
    DropTag(h[0], h[1..], rest);
    if |h| == 1 {
      assert h[1..] + rest == rest;
    } else if |h| == 3 {
      assert h[1..] == U16(n);
      ReadU16Back(n, rest);
    } else {
      assert h[1..] == U32(n);
      ReadU32Back(n, rest);
    }
  }

  lemma {:induction false} MapHeaderBack(n: nat, rest: bytes)
    requires n < TWO_32
    ensures TryMap(At(MapHeader(n) + rest)) == Got(n, At(rest))
  {
    var h := MapHeader(n);
    assert h == [h[0]] + h[1..];
    DropTag(h[0], h[1..], rest);
    if |h| == 1 {
      assert h[1..] + rest == rest;
    } else if |h| == 3 {
      assert h[1..] == U16(n);
      ReadU16Back(n, rest);
    } else {
      assert h[1..] == U32(n);
      ReadU32Back(n, rest);
    }
  }

  // ---------------------------------------------------------------------------
  // The value round trip
  // ---------------------------------------------------------------------------

  /** Which attempt of `decode_value` takes which tag. */
  lemma {:induction false} NumberByTag(r: Rd)
    requires r.rest != [] && !r.err
    ensures r.rest[0] == 0xC0 ==> DecScalar(r) == Got(Null, Drop(r, 1))
    ensures TryBool(r).Got? ==> DecScalar(r) == Got(Bool(TryBool(r).value), TryBool(r).rd)
    ensures IsIntTag(r.rest[0]) ==> TryInt(r).Got? && DecScalar(r) == Got(Int(TryInt(r).value), TryInt(r).rd)
    ensures 0xCA <= r.rest[0] <= 0xCB ==> TryFloat(r).Got? && DecScalar(r) == Got(Float(TryFloat(r).value), TryFloat(r).rd)
  {
    hide FromU16, FromU32;
    var tag := r.rest[0];
    if IsIntTag(tag) {
      assert TryNil(r) == Miss(r) && TryBool(r) == Miss(r);
    } else if 0xCA <= tag <= 0xCB {
      assert TryNil(r) == Miss(r) && TryBool(r) == Miss(r) && TryInt(r) == Miss(r);
    } else if tag == 0xC2 || tag == 0xC3 {
      assert TryNil(r) == Miss(r);
    }
  }

  predicate IsStrTag(tag: byte) {
    0xA0 <= tag < 0xC0 || 0xD9 <= tag <= 0xDB
  }

  predicate IsBinTag(tag: byte) {
    0xC4 <= tag <= 0xC6
  }

  lemma {:induction false} NotANumber(r: Rd)
    requires r.rest != [] && !r.err
    requires !IsIntTag(r.rest[0]) && r.rest[0] !in {0xC0, 0xC2, 0xC3, 0xCA, 0xCB}
    ensures DecScalar(r) == (match TryStr(r)
                             case Got(s, r') => Got(Str(s), r')
                             case Miss(r') =>
                               match TryBin(r')
                               case Got(d, r2) => Got(Bin(d), r2)
                               case Miss(r2) => Miss(r2))
  {
    hide FromU16, FromU32;
    assert TryNil(r) == Miss(r) && TryBool(r) == Miss(r) && TryInt(r) == Miss(r) && TryFloat(r) == Miss(r);
  }

  lemma {:induction false} TextByTag(r: Rd)
    requires r.rest != [] && !r.err
    ensures TryStr(r).Got? ==> DecScalar(r) == Got(Str(TryStr(r).value), TryStr(r).rd)
    ensures TryBin(r).Got? ==> DecScalar(r) == Got(Bin(TryBin(r).value), TryBin(r).rd)
    ensures IsArrTag(r.rest[0]) || IsMapTag(r.rest[0]) ==> DecScalar(r) == Miss(r)
  {
    hide FromU16, FromU32;
    var tag := r.rest[0];
    if IsStrTag(tag) || IsBinTag(tag) || IsArrTag(tag) || IsMapTag(tag) {
      NotANumber(r);
    }
  }

  lemma {:induction false} ArrByTag(r: Rd)
    requires r.rest != [] && !r.err && IsArrTag(r.rest[0])
    ensures TryArr(r).Got?
    ensures Dec(r) == (match DecItems(TryArr(r).value, TryArr(r).rd)
                       case Got(vs, r') => Got(Arr(vs), r')
                       case Miss(r') => Miss(r'))
  {
    hide FromU16, FromU32;
    TextByTag(r);
  }

  lemma {:induction false} MapByTag(r: Rd)
    requires r.rest != [] && !r.err && IsMapTag(r.rest[0])
    ensures TryMap(r).Got?
    ensures Dec(r) == (match DecPairs(TryMap(r).value, TryMap(r).rd)
                       case Got(ps, r') => Got(Map(ps), r')
                       case Miss(r') => Miss(r'))
  {
    hide FromU16, FromU32;
    TextByTag(r);
    assert TryArr(r) == Miss(r);
  }

  /** The unsigned integer forms are read as their number, also where the encoder would have chosen a shorter one. */
  lemma {:induction false} UnsignedForms(n: int, rest: bytes)
    requires 0 <= n < TWO_64
    ensures n < TWO_8 ==> TryInt(At([0xCC] + [n] + rest)) == Got(n, At(rest))
    ensures n < TWO_16 ==> TryInt(At([0xCD] + U16(n) + rest)) == Got(n, At(rest))
    ensures n < TWO_32 ==> TryInt(At([0xCE] + U32(n) + rest)) == Got(n, At(rest))
    ensures TryInt(At([0xCF] + U64(n) + rest)) == Got(ToSigned(n), At(rest))
  {
    hide U16, U32, U64, FromU16, FromU32, ReadU16, ReadU32, ReadU64;
    if n < TWO_8 { DropTag(0xCC, [n], rest); assert ([n] + rest)[1..] == rest; }
    if n < TWO_16 { DropTag(0xCD, U16(n), rest); ReadU16Back(n, rest); }
    if n < TWO_32 { DropTag(0xCE, U32(n), rest); ReadU32Back(n, rest); }
    DropTag(0xCF, U64(n), rest);
    ReadU64Back(n, rest);
  }

  /** So are the signed ones, from two's complement. */
  lemma {:induction false} SignedForms(n: int64, rest: bytes)
    ensures -0x80 <= n < 0x80 ==> TryInt(At([0xD0] + [n % TWO_8] + rest)) == Got(n, At(rest))
    ensures -0x8000 <= n < 0x8000 ==> TryInt(At([0xD1] + U16(n % TWO_16) + rest)) == Got(n, At(rest))
    ensures -0x8000_0000 <= n < 0x8000_0000 ==> TryInt(At([0xD2] + U32(n % TWO_32) + rest)) == Got(n, At(rest))
    ensures TryInt(At([0xD3] + U64(n % TWO_64) + rest)) == Got(n, At(rest))
  {
    hide U16, U32, U64, FromU16, FromU32, ReadU16, ReadU32, ReadU64;
    if -0x80 <= n < 0x80 { DropTag(0xD0, [n % TWO_8], rest); assert ([n % TWO_8] + rest)[1..] == rest; }
    if -0x8000 <= n < 0x8000 { DropTag(0xD1, U16(n % TWO_16), rest); ReadU16Back(n % TWO_16, rest); }
    if -0x8000_0000 <= n < 0x8000_0000 { DropTag(0xD2, U32(n % TWO_32), rest); ReadU32Back(n % TWO_32, rest); }
    DropTag(0xD3, U64(n % TWO_64), rest);
    ReadU64Back(n % TWO_64, rest);
  }

  lemma {:induction false} FloatBack(bits: uint64, rest: bytes)
    ensures TryFloat(At(EncFloat(bits) + rest)) == Got(bits, At(rest))
  {
    DropTag(0xCB, U64(bits), rest);
    ReadU64Back(bits, rest);
  }

  lemma {:induction false} ScalarRoundTrip(v: Value, rest: bytes)
    requires Sized(v) && !v.Arr? && !v.Map?
    ensures Dec(At(Enc(v) + rest)) == Got(v, At(rest))
  {
    var r := At(Enc(v) + rest);
    match v
    case Null =>
      NumberByTag(r);
      assert r.rest[1..] == rest;
    case Bool(b) =>
      NumberByTag(r);
      assert r.rest[1..] == rest;
    case Int(i) =>
      NumberByTag(r);
      IntBack(i, rest);
    case Float(bits) =>
      NumberByTag(r);
      FloatBack(bits, rest);
    case Str(s) =>
      TextByTag(r);
      StrBack(s, rest);
    case Bin(d) =>
      TextByTag(r);
      BinBack(d, rest);
  }

  /** Decoding an encoding returns the tree and stops exactly at the trailing bytes. */
  lemma {:induction false} RoundTrip(v: Value, rest: bytes)
    requires Sized(v)
    ensures Dec(At(Enc(v) + rest)) == Got(v, At(rest))
    decreases v, 0
  {
    var r := At(Enc(v) + rest);
    match v
    case Arr(items) =>
      var body := EncItems(items) + rest;
      assert r.rest == ArrHeader(|items|) + body;
      ArrHeaderBack(|items|, body);
      ItemsRoundTrip(items, rest);
      ArrByTag(r);
    case Map(pairs) =>
      var body := EncPairs(pairs) + rest;
      assert r.rest == MapHeader(|pairs|) + body;
      MapHeaderBack(|pairs|, body);
      PairsRoundTrip(pairs, rest);
      MapByTag(r);
    case _ =>
      ScalarRoundTrip(v, rest);
  }

  lemma {:induction false} ItemsRoundTrip(vs: seq<Value>, rest: bytes)
    requires SizedAll(vs)
    ensures DecItems(|vs|, At(EncItems(vs) + rest)) == Got(vs, At(rest))
    decreases vs, 1
  {
    if vs == [] {
      assert EncItems(vs) + rest == rest;
    } else {
      var tail := EncItems(vs[1..]) + rest;
      assert EncItems(vs) + rest == Enc(vs[0]) + tail;
      RoundTrip(vs[0], tail);
      ItemsRoundTrip(vs[1..], rest);
      assert vs == [vs[0]] + vs[1..];
    }
  }

  lemma {:induction false} PairsRoundTrip(ps: seq<Pair>, rest: bytes)
    requires SizedPairs(ps)
    ensures DecPairs(|ps|, At(EncPairs(ps) + rest)) == Got(ps, At(rest))
    decreases ps, 1
  {
    hide Dec, DecPairs, Enc;
    if ps == [] {
      NoPairs(rest);
    } else {
      var tail := EncPairs(ps[1..]) + rest;
      var k, v := ps[0].key, ps[0].val;
      EncPairsStep(ps, rest);
      PairRoundTrip(ps[0], tail);
      PairsRoundTrip(ps[1..], rest);
      DecPairsStep(|ps|, At(Enc(k) + (Enc(v) + tail)), k, At(Enc(v) + tail), v, At(tail));
      assert ps == [Pair(k, v)] + ps[1..];
    }
  }

  lemma {:induction false} NoPairs(rest: bytes)
    ensures DecPairs(0, At(EncPairs([]) + rest)) == Got([], At(rest))
  {
    assert EncPairs([]) + rest == rest;
  }

  lemma {:induction false} EncPairsStep(ps: seq<Pair>, rest: bytes)
    requires ps != []
    ensures EncPairs(ps) + rest == Enc(ps[0].key) + (Enc(ps[0].val) + (EncPairs(ps[1..]) + rest))
  {
    hide Enc;
    var a, b, c := Enc(ps[0].key), Enc(ps[0].val), EncPairs(ps[1..]);
    assert a + b + c + rest == a + (b + (c + rest));
  }

  lemma {:induction false} DecPairsStep(n: nat, r: Rd, k: Value, r1: Rd, v: Value, r2: Rd)
    requires n > 0 && Dec(r) == Got(k, r1) && Dec(r1) == Got(v, r2)
    ensures DecPairs(n, r) == (match DecPairs(n - 1, r2)
                               case Miss(r3) => Miss(r3)
                               case Got(ps, r3) => Got([Pair(k, v)] + ps, r3))
  {
  }

  lemma {:induction false} PairRoundTrip(p: Pair, tail: bytes)
    requires Sized(p.key) && Sized(p.val)
    ensures Dec(At(Enc(p.key) + (Enc(p.val) + tail))) == Got(p.key, At(Enc(p.val) + tail))
    ensures Dec(At(Enc(p.val) + tail)) == Got(p.val, At(tail))
    decreases p, 2
  {
    RoundTrip(p.key, Enc(p.val) + tail);
    RoundTrip(p.val, tail);
  }
}
