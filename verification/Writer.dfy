/**
 * The encoding half of c/src/codec.c as it runs: a fixed buffer with a sticky overflow flag,
 * recursive writes into it, and the retry loop that doubles the buffer.
 */
module Writer {
  import opened Bytes
  import opened Mpack
  import opened Message

  /**
   * `mpack_writer_t`. After an overflow later, shorter writes may still land in the buffer;
   * `want` is everything the caller asked to write, and the flag tells whether it fits.
   */
  class MpackWriter {
    const buf: array<byte>
    var pos: nat
    var overflow: bool
    ghost var want: bytes

    ghost predicate Valid()
      reads this, buf
    {
      && pos <= buf.Length
      && (!overflow ==> buf[..pos] == want)
      && (overflow ==> |want| > buf.Length)
    }

    constructor (buf: array<byte>)
      ensures Valid() && this.buf == buf && want == [] && !overflow
    {
      this.buf := buf;
      pos, overflow, want := 0, false, [];
    }

    method WriteRaw(data: bytes)
      requires Valid()
      modifies this, buf
      ensures Valid() && want == old(want) + data
    {
      want := want + data;
      if pos + |data| > buf.Length {
        overflow := true;
        return;
      }
      ghost var before := buf[..pos];
      forall i | 0 <= i < |data| {
        buf[pos + i] := data[i];
      }
      assert buf[..pos + |data|] == before + data;
      pos := pos + |data|;
    }

    method WriteU8(v: int)
      requires Valid() && 0 <= v < TWO_8
      modifies this, buf
      ensures Valid() && want == old(want) + [v]
    {
      WriteRaw([v]);
    }

    method WriteU16(v: int)
      requires Valid() && 0 <= v < TWO_16
      modifies this, buf
      ensures Valid() && want == old(want) + U16(v)
    {
      WriteRaw(U16(v));
    }

    method WriteU32(v: int)
      requires Valid() && 0 <= v < TWO_32
      modifies this, buf
      ensures Valid() && want == old(want) + U32(v)
    {
      WriteRaw(U32(v));
    }

    method WriteU64(v: int)
      requires Valid() && 0 <= v < TWO_64
      modifies this, buf
      ensures Valid() && want == old(want) + U64(v)
    {
      WriteU32(v / TWO_32);
      WriteU32(v % TWO_32);
    }

    method WriteNil()
      requires Valid()
      modifies this, buf
      ensures Valid() && want == old(want) + Enc(Null)
    {
      WriteU8(0xC0);
    }

    method WriteBool(b: bool)
      requires Valid()
      modifies this, buf
      ensures Valid() && want == old(want) + EncBool(b)
    {
      WriteU8(if b then 0xC3 else 0xC2);
    }

    method WriteInt64(v: int64)
      requires Valid()
      modifies this, buf
      ensures Valid() && want == old(want) + EncInt(v)
    {
      hide Valid, U16, U32, U64;
      if 0 <= v <= 0x7F {
        WriteU8(v);
      } else if -32 <= v < 0 {
        WriteU8(0x100 + v);
      } else if v >= 0 {
        if v <= 0xFF {
          WriteU8(0xCC);
          WriteU8(v);
          Assoc(old(want), [0xCC], [v]);
        } else if v <= 0xFFFF {
          WriteU8(0xCD);
          WriteU16(v);
          Assoc(old(want), [0xCD], U16(v));
        } else if v <= 0xFFFF_FFFF {
          WriteU8(0xCE);
          WriteU32(v);
          Assoc(old(want), [0xCE], U32(v));
        } else {
          WriteU8(0xCF);
          WriteU64(v);
          Assoc(old(want), [0xCF], U64(v));
        }
      } else {
        if v >= -0x80 {
          WriteU8(0xD0);
          WriteU8(v + TWO_8);
          Assoc(old(want), [0xD0], [v + TWO_8]);
        } else if v >= -0x8000 {
          WriteU8(0xD1);
          WriteU16(v + TWO_16);
          Assoc(old(want), [0xD1], U16(v + TWO_16));
        } else if v >= -0x8000_0000 {
          WriteU8(0xD2);
          WriteU32(v + TWO_32);
          Assoc(old(want), [0xD2], U32(v + TWO_32));
        } else {
          WriteU8(0xD3);
          WriteU64(v + TWO_64);
          Assoc(old(want), [0xD3], U64(v + TWO_64));
        }
      }
    }

    method WriteDouble(bits: uint64)
      requires Valid()
      modifies this, buf
      ensures Valid() && want == old(want) + EncFloat(bits)
    {
      WriteU8(0xCB);
      WriteU64(bits);
    }

    method WriteStr(s: bytes)
      requires Valid()
      modifies this, buf
      ensures Valid() && want == old(want) + EncStr(s)
    {
      hide Valid, U16, U32;
      var len := |s|;
      if len < 32 {
        WriteU8(0xA0 + len);
      } else if len <= 0xFF {
        WriteU8(0xD9);
        WriteU8(len);
      } else if len <= 0xFFFF {
        WriteU8(0xDA);
        WriteU16(len);
      } else {
        WriteU8(0xDB);
        WriteU32(len % TWO_32);
      }
      assert want == old(want) + StrHeader(len);
      WriteRaw(s);
    }

    method WriteBin(d: bytes)
      requires Valid()
      modifies this, buf
      ensures Valid() && want == old(want) + EncBin(d)
    {
      hide Valid, U16, U32;
      var len := |d|;
      if len <= 0xFF {
        WriteU8(0xC4);
        WriteU8(len);
      } else if len <= 0xFFFF {
        WriteU8(0xC5);
        WriteU16(len);
      } else {
        WriteU8(0xC6);
        WriteU32(len % TWO_32);
      }
      assert want == old(want) + BinHeader(len);
      WriteRaw(d);
    }

    method WriteArrayHeader(count: nat)
      requires Valid()
      modifies this, buf
      ensures Valid() && want == old(want) + ArrHeader(count)
    {
      var n := count % TWO_32;
      if n < 16 {
        WriteU8(0x90 + n);
      } else if n <= 0xFFFF {
        WriteU8(0xDC);
        WriteU16(n);
      } else {
        WriteU8(0xDD);
        WriteU32(n);
      }
    }

    method WriteMapHeader(count: nat)
      requires Valid()
      modifies this, buf
      ensures Valid() && want == old(want) + MapHeader(count)
    {
      var n := count % TWO_32;
      if n < 16 {
        WriteU8(0x80 + n);
      } else if n <= 0xFFFF {
        WriteU8(0xDE);
        WriteU16(n);
      } else {
        WriteU8(0xDF);
        WriteU32(n);
      }
    }

    /** `encode_value` (c/src/codec.c:12-53). */
    method EncodeValue(v: Value)
      requires Valid()
      modifies this, buf
      ensures Valid() && want == old(want) + Enc(v)
      decreases v, 0
    {
      hide Valid, EncBool, EncInt, EncFloat, EncStr, EncBin, ArrHeader, MapHeader, EncItems, EncPairs;
      match v {
        case Null => WriteNil();
        case Bool(b) => WriteBool(b);
        case Int(i) => WriteInt64(i);
        case Float(bits) => WriteDouble(bits);
        case Str(s) => WriteStr(s);
        case Bin(d) => WriteBin(d);
        case Arr(items) =>
          WriteArrayHeader(|items|);
          EncodeItems(items);
          Assoc(old(want), ArrHeader(|items|), EncItems(items));
        case Map(pairs) =>
          WriteMapHeader(|pairs|);
          EncodePairs(pairs);
          Assoc(old(want), MapHeader(|pairs|), EncPairs(pairs));
      }
    }

    method EncodeItems(items: seq<Value>)
      requires Valid()
      modifies this, buf
      ensures Valid() && want == old(want) + EncItems(items)
      decreases items, 1
    {
      assert EncItems([]) == [];
      hide Valid, Enc, EncItems;
      var i := 0;
      while i < |items|
        invariant 0 <= i <= |items|
        invariant Valid() && want == old(want) + EncItems(items[..i])
      {
        EncodeValue(items[i]);
        Assoc(old(want), EncItems(items[..i]), Enc(items[i]));
        EncItemsAppend(items[..i], items[i]);
        assert items[..i + 1] == items[..i] + [items[i]];
        i := i + 1;
      }
      assert items[..|items|] == items;
    }

    method EncodePairs(pairs: seq<Pair>)
      requires Valid()
      modifies this, buf
      ensures Valid() && want == old(want) + EncPairs(pairs)
      decreases pairs, 1
    {
      assert EncPairs([]) == [];
      hide Valid, EncPair, EncPairs;
      var i := 0;
      while i < |pairs|
        invariant 0 <= i <= |pairs|
        invariant Valid() && want == old(want) + EncPairs(pairs[..i])
      {
        EncodePair(pairs[i]);
        Assoc(old(want), EncPairs(pairs[..i]), EncPair(pairs[i]));
        EncPairsAppend(pairs[..i], pairs[i]);
        assert pairs[..i + 1] == pairs[..i] + [pairs[i]];
        i := i + 1;
      }
      assert pairs[..|pairs|] == pairs;
    }

    method EncodePair(p: Pair)
      requires Valid()
      modifies this, buf
      ensures Valid() && want == old(want) + EncPair(p)
      decreases p, 2
    {
      EncodeValue(p.key);
      EncodeValue(p.val);
    }

    /** `mpack_write_str(w, "key", n)` for a field name. */
    method WriteEntry(e: Entry)
      requires Valid() && !e.EUnknown? && !e.EOddKey?
      modifies this, buf
      ensures Valid() && want == old(want) + EntryBytes(e)
    {
      assert KeyBytes(e) == EncStr(KeyOf(e));
      hide Valid, EncStr, EncInt, Enc, EncItems, ArrHeader, EncBool, KeyBytes, KeyOf;
      WriteStr(KeyOf(e));
      match e {
        case EId(id) => WriteInt64(ToSigned(id));
        case EType(s) => WriteStr(s);
        case EFunc(s) => WriteStr(s);
        case EArgs(vs) =>
          WriteArrayHeader(|vs|);
          EncodeItems(vs);
          Assoc(old(want) + KeyBytes(e), ArrHeader(|vs|), EncItems(vs));
        case EStream(b) => WriteBool(b);
        case EResult(v) => EncodeValue(v);
        case EErrorType(s) => WriteStr(s);
        case EMessage(s) => WriteStr(s);
      }
      Assoc(old(want), KeyBytes(e), ValBytes(e));
    }

    /** The next entry of a map whose entries so far are `done`. */
    method PutEntry(ghost start: bytes, ghost done: seq<Entry>, e: Entry)
      requires Valid() && !e.EUnknown? && !e.EOddKey?
      requires want == start + EncEntries(done)
      modifies this, buf
      ensures Valid() && want == start + EncEntries(done + [e])
    {
      hide Valid, EntryBytes, EncEntries;
      WriteEntry(e);
      EncEntriesAppend(done, e);
      Assoc(start, EncEntries(done), EntryBytes(e));
    }

    /** A map header; `done` is empty from here. */
    method BeginMap(count: nat)
      requires Valid()
      modifies this, buf
      ensures Valid() && want == old(want) + MapHeader(count) + EncEntries([])
    {
      hide Valid, MapHeader;
      WriteMapHeader(count);
      assert want + [] == want;
    }

    /** `encode_request_fn2` (c/src/codec.c:237-260). */
    method EncodeRequest(id: uint64, func: Option<bytes>, args: seq<Value>, stream: bool)
      requires Valid()
      modifies this, buf
      ensures Valid() && want == old(want) + Encode(Request(id, func, args, stream))
    {
      ghost var n := if stream then 5 else 4;
      ghost var start := want + MapHeader(n);
      ghost var m := Request(id, func, args, stream);
      var f := TextOr(func, []);
      assert [] + [EId(id)] == [EId(id)];
      ghost var done := [EId(id), EType(REQUEST), EFunc(f)];
      assert Entries(m) == done + [EArgs(args)] + (if stream then [EStream(true)] else []);
      assert stream ==> |Entries(m)| == 5;
      assert !stream ==> |Entries(m)| == 4;
      hide Valid, MapHeader, EncEntries, Entries, TextOr;
      BeginMap(if stream then 5 else 4);
      PutEntry(start, [], EId(id));
      PutEntry(start, [EId(id)], EType(REQUEST));
      PutEntry(start, [EId(id), EType(REQUEST)], EFunc(f));
      PutEntry(start, done, EArgs(args));
      if stream {
        PutEntry(start, done + [EArgs(args)], EStream(true));
      } else {
        assert done + [EArgs(args)] + [] == done + [EArgs(args)];
      }
      Assoc(old(want), MapHeader(n), EncEntries(Entries(m)));
    }

    /** `encode_response_fn` and `encode_stream_chunk_fn` (c/src/codec.c:281-290, 324-333). */
    method EncodeResult(ghost m: Outgoing, kind: bytes, id: uint64, v: Value)
      requires Valid() && Entries(m) == [EId(id), EType(kind), EResult(v)]
      modifies this, buf
      ensures Valid() && want == old(want) + Encode(m)
    {
      ghost var start := want + MapHeader(3);
      assert [] + [EId(id)] == [EId(id)];
      hide Valid, MapHeader, EncEntries, Entries;
      BeginMap(3);
      PutEntry(start, [], EId(id));
      PutEntry(start, [EId(id)], EType(kind));
      PutEntry(start, [EId(id), EType(kind)], EResult(v));
      assert [EId(id), EType(kind)] + [EResult(v)] == Entries(m);
      Assoc(old(want), MapHeader(3), EncEntries(Entries(m)));
    }

    /** `encode_error_fn` (c/src/codec.c:304-316). */
    method EncodeError(id: uint64, errorType: Option<bytes>, message: Option<bytes>)
      requires Valid()
      modifies this, buf
      ensures Valid() && want == old(want) + Encode(Error(id, errorType, message))
    {
      ghost var start := want + MapHeader(4);
      ghost var m := Error(id, errorType, message);
      var t, s := TextOr(errorType, DEFAULT_ERROR), TextOr(message, []);
      assert [] + [EId(id)] == [EId(id)];
      ghost var done := [EId(id), EType(ERROR), EErrorType(t)];
      assert Entries(m) == done + [EMessage(s)];
      hide Valid, MapHeader, EncEntries, Entries, TextOr;
      BeginMap(4);
      PutEntry(start, [], EId(id));
      PutEntry(start, [EId(id)], EType(ERROR));
      PutEntry(start, [EId(id), EType(ERROR)], EErrorType(t));
      PutEntry(start, done, EMessage(s));
      Assoc(old(want), MapHeader(4), EncEntries(Entries(m)));
    }

    /** `encode_id_only_fn` (c/src/codec.c:347-354). */
    method EncodeIdOnly(ghost m: Outgoing, kind: bytes, id: uint64)
      requires Valid() && Entries(m) == [EId(id), EType(kind)]
      modifies this, buf
      ensures Valid() && want == old(want) + Encode(m)
    {
      ghost var start := want + MapHeader(2);
      assert [] + [EId(id)] == [EId(id)];
      hide Valid, MapHeader, EncEntries, Entries;
      BeginMap(2);
      PutEntry(start, [], EId(id));
      PutEntry(start, [EId(id)], EType(kind));
      assert [EId(id)] + [EType(kind)] == Entries(m);
      Assoc(old(want), MapHeader(2), EncEntries(Entries(m)));
    }

    /** The encode callback chosen by each of the seven public encoders (c/src/codec.c:262-366). */
    method EncodeMessage(m: Outgoing)
      requires Valid()
      modifies this, buf
      ensures Valid() && want == old(want) + Encode(m)
    {
      hide Valid, Encode;
      match m {
        case Request(id, func, args, stream) => EncodeRequest(id, func, args, stream);
        case Response(id, v) => EncodeResult(m, RESPONSE, id, v);
        case Error(id, t, s) => EncodeError(id, t, s);
        case StreamChunk(id, v) => EncodeResult(m, STREAM_CHUNK, id, v);
        case StreamEnd(id) => EncodeIdOnly(m, STREAM_END, id);
        case StreamClose(id) => EncodeIdOnly(m, STREAM_CLOSE, id);
      }
    }
  }

  lemma {:induction false} Assoc(a: bytes, b: bytes, c: bytes)
    ensures a + b + c == a + (b + c)
  {
  }

  lemma {:induction false} EncItemsAppend(vs: seq<Value>, v: Value)
    ensures EncItems(vs + [v]) == EncItems(vs) + Enc(v)
  {
    hide Enc;
    if vs == [] {
      assert EncItems([v]) == Enc(v) + EncItems([]);
    } else {
      assert (vs + [v])[1..] == vs[1..] + [v];
      EncItemsAppend(vs[1..], v);
    }
  }

  lemma {:induction false} EncPairsAppend(ps: seq<Pair>, p: Pair)
    ensures EncPairs(ps + [p]) == EncPairs(ps) + EncPair(p)
  {
    hide EncPair;
    if ps == [] {
      assert EncPairs([p]) == EncPair(p) + EncPairs([]);
    } else {
      assert (ps + [p])[1..] == ps[1..] + [p];
      EncPairsAppend(ps[1..], p);
    }
  }

  lemma {:induction false} EncEntriesAppend(es: seq<Entry>, e: Entry)
    ensures EncEntries(es + [e]) == EncEntries(es) + EntryBytes(e)
  {
    hide EntryBytes;
    if es == [] {
      assert EncEntries([e]) == EntryBytes(e) + EncEntries([]);
    } else {
      assert (es + [e])[1..] == es[1..] + [e];
      EncEntriesAppend(es[1..], e);
    }
  }

  // ---------------------------------------------------------------------------
  // encode_with_growth
  // ---------------------------------------------------------------------------

  const INITIAL: int := 4096
  const SAFETY_CAP: int := 64 * 1024 * 1024

  /** The capacity of attempt number `k`. */
  function Capacity(k: nat): (c: nat)
    ensures c >= INITIAL
  {
    if k == 0 then INITIAL else 2 * Capacity(k - 1)
  }

  lemma {:induction false} LastCapacity()
    ensures Capacity(14) == SAFETY_CAP
  {
    assert Capacity(4) == 65536;
    assert Capacity(8) == 1048576;
    assert Capacity(12) == 16777216;
  }

  lemma {:induction false} CapacityGrows(i: nat, j: nat)
    requires i <= j
    ensures Capacity(i) <= Capacity(j)
  {
    if i < j {
      CapacityGrows(i, j - 1);
    }
  }

  /** Doubling stays under the safety cap for exactly fifteen capacities. */
  lemma {:induction false} CapacityLimit(k: nat)
    ensures Capacity(k) <= SAFETY_CAP <==> k <= 14
  {
    LastCapacity();
    if k <= 14 {
      CapacityGrows(k, 14);
    } else {
      assert Capacity(15) == 2 * Capacity(14);
      CapacityGrows(15, k);
    }
  }

  /** One round: a fresh buffer, one run of the encoder, and the overflow flag. */
  method Attempt(m: Outgoing, cap: nat) returns (payload: Option<bytes>)
    ensures payload.Some? <==> |Encode(m)| <= cap
    ensures payload.Some? ==> payload.value == Encode(m)
  {
    hide Encode;
    var buf := new byte[cap];
    var w := new MpackWriter(buf);
    w.EncodeMessage(m);
    assert [] + Encode(m) == Encode(m);
    payload := if w.overflow then None else Some(buf[..w.pos]);
  }

  /**
   * `encode_with_growth` (c/src/codec.c:204-221): succeeds exactly when the unbounded encoding
   * fits the safety cap, returns precisely that encoding, and stops within fifteen attempts,
   * at the first capacity that is large enough.
   */
  method EncodeWithGrowth(m: Outgoing) returns (payload: Option<bytes>, attempts: nat)
    ensures payload.Some? <==> |Encode(m)| <= SAFETY_CAP
    ensures payload.Some? ==> payload.value == Encode(m)
    ensures 1 <= attempts <= 15
    ensures payload.Some? ==> |Encode(m)| <= Capacity(attempts - 1)
    ensures attempts >= 2 ==> |Encode(m)| > Capacity(attempts - 2)
  {
    hide Encode;
    var cap := INITIAL;
    attempts := 0;
    while true
      invariant 0 <= attempts <= 14 && cap == Capacity(attempts)
      invariant attempts > 0 ==> |Encode(m)| > Capacity(attempts - 1)
      decreases 15 - attempts
    {
      CapacityLimit(attempts);
      CapacityLimit(attempts + 1);
      payload := Attempt(m, cap);
      attempts := attempts + 1;
      if payload.Some? {
        return;
      }
      cap := cap * 2;
      if cap > SAFETY_CAP {
        LastCapacity();
        return None, attempts;
      }
    }
  }
}
