/** `mpack_skip_value` against `decode_value`: the decoder may skip exactly what it could decode. */
module SkipValue {
  import opened Bytes
  import opened Mpack
  import opened ValueRoundTrip

  /** The reader reached the end of one complete value without an error. */
  predicate Clean(g: Got<Value>) {
    g.Got? && !g.rd.err
  }

  lemma {:induction false} ReadsKeepError(r: Rd)
    requires r.err
    ensures Drop(r, 1).err && ReadU8(r).1.err && ReadU16(r).1.err && ReadU32(r).1.err
    ensures forall n: nat :: ReadRaw(r, n).rd.err
  {
    hide FromU16, FromU32;
  }

  /** Once set, the error flag survives every read that `decode_value` may still attempt. */
  lemma {:induction false} ErrorSticks(r: Rd)
    requires r.err
    ensures TryStr(r).rd.err && TryBin(r).rd.err && TryArr(r).rd.err && TryMap(r).rd.err
  {
    hide Drop, ReadRaw, FromU16, FromU32;
    ReadsKeepError(r);
    var r1 := Drop(r, 1);
    ReadsKeepError(r1);
    ReadsKeepError(ReadU8(r1).1);
    ReadsKeepError(ReadU16(r1).1);
    ReadsKeepError(ReadU32(r1).1);
  }

  lemma {:induction false} SkipKeepsError(r: Rd)
    requires r.err
    ensures Skip(r) == r
  {
  }

  lemma {:induction false} ErrorSticksInItems(n: nat, r: Rd)
    requires r.err
    ensures DecItems(n, r).rd.err && DecPairs(n, r).rd.err && SkipMany(n, r) == r
  {
    hide DecScalar, Skip;
  }

  /** A string whose bytes are missing is never reported as a clean value, whatever the later attempts find. */
  lemma {:induction false} TruncatedString(r: Rd)
    requires r.rest != [] && !r.err && IsStrTag(r.rest[0]) && TryStr(r).Miss?
    ensures !Clean(Dec(r))
  {
    hide FromU16, FromU32;
    NotANumber(r);
    var r1 := TryStr(r).rd;
    ErrorSticks(r1);
    var r2 := TryBin(r1).rd;
    ErrorSticks(r2);
    var r3 := TryArr(r2);
    ErrorSticks(r3.rd);
    ErrorSticksInItems(if r3.Got? then r3.value else 0, r3.rd);
    var r4 := TryMap(r3.rd);
    ErrorSticksInItems(if r4.Got? then r4.value else 0, r4.rd);
  }

  lemma {:induction false} TruncatedBinary(r: Rd)
    requires r.rest != [] && !r.err && IsBinTag(r.rest[0]) && TryBin(r).Miss?
    ensures !Clean(Dec(r))
  {
    hide FromU16, FromU32;
    NotANumber(r);
    assert TryStr(r) == Miss(r);
    var r2 := TryBin(r).rd;
    ErrorSticks(r2);
    var r3 := TryArr(r2);
    ErrorSticks(r3.rd);
    ErrorSticksInItems(if r3.Got? then r3.value else 0, r3.rd);
    var r4 := TryMap(r3.rd);
    ErrorSticksInItems(if r4.Got? then r4.value else 0, r4.rd);
  }

  lemma {:induction false} UnknownTag(r: Rd)
    requires r.rest != [] && !r.err
    requires !IsIntTag(r.rest[0]) && r.rest[0] !in {0xC0, 0xC2, 0xC3, 0xCA, 0xCB}
    requires !IsStrTag(r.rest[0]) && !IsBinTag(r.rest[0]) && !IsArrTag(r.rest[0]) && !IsMapTag(r.rest[0])
    ensures Dec(r) == Miss(Fail(r)) && SkipScalar(r) == Fail(r)
  {
    hide FromU16, FromU32;
    NotANumber(r);
    assert TryStr(r) == Miss(r) && TryBin(r) == Miss(r);
    assert TryArr(r) == Miss(r) && TryMap(r) == Miss(r);
  }

  predicate Agree(g: Got<Value>, r: Rd) {
    && (!r.err ==> g.Got? && g.rd == r)
    && (Clean(g) ==> r == g.rd)
  }

  lemma {:induction false} IntSkipAgrees(r: Rd)
    requires r.rest != [] && !r.err && IsIntTag(r.rest[0])
    ensures TryInt(r).rd == SkipScalar(r)
  {
    hide FromU16, FromU32;
  }

  lemma {:induction false} OtherSkipAgrees(r: Rd)
    requires r.rest != [] && !r.err && r.rest[0] in {0xC0, 0xC2, 0xC3, 0xCA, 0xCB}
    ensures r.rest[0] == 0xC0 ==> SkipScalar(r) == Drop(r, 1)
    ensures TryBool(r).Got? ==> SkipScalar(r) == TryBool(r).rd
    ensures 0xCA <= r.rest[0] ==> SkipScalar(r) == TryFloat(r).rd
    ensures 0xC2 <= r.rest[0] <= 0xC3 ==> TryBool(r).Got?
  {
    hide FromU16, FromU32;
  }

  lemma {:induction false} ScalarFirst(r: Rd)
    requires !r.err && DecScalar(r).Got?
    ensures Dec(r) == DecScalar(r)
  {
    hide DecScalar;
  }

  lemma {:induction false} SkipNumberAgrees(r: Rd)
    requires r.rest != [] && !r.err
    requires IsIntTag(r.rest[0]) || r.rest[0] in {0xC0, 0xC2, 0xC3, 0xCA, 0xCB}
    ensures Agree(Dec(r), SkipScalar(r))
  {
    hide Dec, DecScalar, TryInt, TryFloat, TryBool, SkipScalar;
    NumberByTag(r);
    if IsIntTag(r.rest[0]) {
      IntSkipAgrees(r);
    } else {
      OtherSkipAgrees(r);
    }
    ScalarFirst(r);
  }

  lemma {:induction false} StrMissIsError(r: Rd)
    requires r.rest != []
    ensures IsStrTag(r.rest[0]) && TryStr(r).Miss? ==> TryStr(r).rd.err
    ensures IsBinTag(r.rest[0]) && TryBin(r).Miss? ==> TryBin(r).rd.err
  {
    hide FromU16, FromU32;
  }

  lemma {:induction false} SkipScalarAgrees(r: Rd)
    requires r.rest != [] && !r.err && !IsArrTag(r.rest[0]) && !IsMapTag(r.rest[0])
    ensures Agree(Dec(r), SkipScalar(r))
  {
    hide Dec, DecScalar, TryStr, TryBin;
    var tag := r.rest[0];
    if IsIntTag(tag) || tag in {0xC0, 0xC2, 0xC3, 0xCA, 0xCB} {
      SkipNumberAgrees(r);
    } else if IsStrTag(tag) {
      if TryStr(r).Got? {
        TextByTag(r);
        ScalarFirst(r);
      } else {
        TruncatedString(r);
        StrMissIsError(r);
      }
    } else if IsBinTag(tag) {
      if TryBin(r).Got? {
        TextByTag(r);
        ScalarFirst(r);
      } else {
        StrMissIsError(r);
        TruncatedBinary(r);
      }
    } else {
      UnknownTag(r);
    }
  }

  /** Skipping succeeds exactly where decoding does, and stops at the same byte. */
  lemma {:induction false} SkipAgrees(r: Rd)
    requires !r.err
    ensures Agree(Dec(r), Skip(r))
    decreases |r.rest|, 0, 0
  {
    if r.rest == [] {
      EmptyReader(r);
    } else if IsArrTag(r.rest[0]) {
      ArrByTag(r);
      var g := TryArr(r);
      SkipItemsAgrees(g.value, g.rd);
    } else if IsMapTag(r.rest[0]) {
      MapByTag(r);
      var g := TryMap(r);
      SkipPairsAgrees(g.value, g.rd);
    } else {
      SkipScalarAgrees(r);
    }
  }

  /** At the end of the buffer the integer attempt reads tag 0; the flag makes the result worthless. */
  lemma {:induction false} EmptyReader(r: Rd)
    requires !r.err && r.rest == []
    ensures Dec(r) == Got(Int(0), Fail(r)) && Skip(r) == Fail(r)
  {
  }

  predicate AgreeMany<T>(g: Got<T>, r: Rd) {
    && (!r.err ==> g.Got? && g.rd == r)
    && (g.Got? && !g.rd.err ==> r == g.rd)
  }

  lemma {:induction false} SkipItemsAgrees(n: nat, r: Rd)
    ensures AgreeMany(DecItems(n, r), SkipMany(n, r))
    decreases |r.rest|, 1, n
  {
    if r.err {
      ErrorSticksInItems(n, r);
    } else if n > 0 {
      SkipAgrees(r);
      if Clean(Dec(r)) {
        SkipItemsAgrees(n - 1, Skip(r));
      } else {
        assert Skip(r).err;
        ErrorSticksInItems(n - 1, Skip(r));
        if Dec(r).Got? {
          ErrorSticksInItems(n - 1, Dec(r).rd);
        }
      }
    }
  }

  lemma {:induction false} SkipManyStep(n: nat, r: Rd)
    requires !r.err && n > 0
    ensures SkipMany(n, r) == SkipMany(n - 1, Skip(r))
  {
  }

  lemma {:induction false} SkipTwo(n: nat, r: Rd, r1: Rd, r2: Rd)
    requires !r.err && n >= 2 && r1 == Skip(r) && r2 == Skip(r1)
    ensures SkipMany(n, r) == SkipMany(n - 2, r2)
  {
    SkipManyStep(n, r);
    if r1.err {
      SkipKeepsError(r1);
      ErrorSticksInItems(n - 1, r1);
      ErrorSticksInItems(n - 2, r1);
    } else {
      SkipManyStep(n - 1, r1);
    }
  }

  lemma {:induction false} SkipPairsAgrees(n: nat, r: Rd)
    ensures AgreeMany(DecPairs(n, r), SkipMany(2 * n, r))
    decreases |r.rest|, 1, n
  {
    hide Dec, DecPairs, SkipMany, Skip;
    if n == 0 {
      NoPairs(r);
    } else if r.err {
      ErrorSticksInItems(n, r);
      ErrorSticksInItems(2 * n, r);
    } else {
      var r1 := Skip(r);
      var r2 := Skip(r1);
      SkipTwo(2 * n, r, r1, r2);
      SkipAgrees(r);
      if !Clean(Dec(r)) {
        DirtyFirst(n, r);
        SkipKeepsError(r1);
        ErrorSticksInItems(2 * n - 2, r2);
      } else {
        SkipAgrees(r1);
        if !Clean(Dec(r1)) {
          DirtySecond(n, r, r1);
          ErrorSticksInItems(2 * n - 2, r2);
        } else {
          SkipPairsAgrees(n - 1, r2);
          PairsAgreeStep(n, r, r1, r2);
        }
      }
    }
  }

  lemma {:induction false} NoPairs(r: Rd)
    ensures DecPairs(0, r) == Got([], r) && SkipMany(0, r) == r
  {
  }

  lemma {:induction false} PairsAgreeStep(n: nat, r: Rd, r1: Rd, r2: Rd)
    requires n > 0 && Dec(r).Got? && Dec(r).rd == r1 && Dec(r1).Got? && Dec(r1).rd == r2
    requires AgreeMany(DecPairs(n - 1, r2), SkipMany(2 * (n - 1), r2))
    ensures AgreeMany(DecPairs(n, r), SkipMany(2 * n - 2, r2))
  {
    hide Dec, DecPairs, SkipMany, Skip;
    DecPairsStep(n, r, Dec(r).value, r1, Dec(r1).value, r2);
    assert 2 * (n - 1) == 2 * n - 2;
  }

  lemma {:induction false} DirtyFirst(n: nat, r: Rd)
    requires n > 0 && !Clean(Dec(r))
    ensures DecPairs(n, r).Miss? || DecPairs(n, r).rd.err
  {
    var g := Dec(r);
    if g.Got? {
      assert Dec(g.rd) == Miss(g.rd);
    }
  }

  lemma {:induction false} DirtySecond(n: nat, r: Rd, r1: Rd)
    requires n > 0 && Dec(r).Got? && Dec(r).rd == r1 && !Clean(Dec(r1))
    ensures DecPairs(n, r).Miss? || DecPairs(n, r).rd.err
  {
    var g := Dec(r1);
    if g.Got? {
      DecPairsStep(n, r, Dec(r).value, r1, g.value, g.rd);
      ErrorSticksInItems(n - 1, g.rd);
    }
  }

  // ---------------------------------------------------------------------------
  // Skipping is local: bytes after the value do not change it
  // ---------------------------------------------------------------------------

  function More(r: Rd, more: bytes): Rd {
    r.(rest := r.rest + more)
  }

  lemma {:induction false} ReadsExtend(r: Rd, more: bytes)
    ensures |r.rest| >= 1 ==> ReadU8(More(r, more)) == (ReadU8(r).0, More(ReadU8(r).1, more))
    ensures |r.rest| >= 2 ==> ReadU16(More(r, more)) == (ReadU16(r).0, More(ReadU16(r).1, more))
    ensures |r.rest| >= 4 ==> ReadU32(More(r, more)) == (ReadU32(r).0, More(ReadU32(r).1, more))
  {
    hide FromU16, FromU32;
    if |r.rest| >= 1 { assert (r.rest + more)[1..] == r.rest[1..] + more; }
    if |r.rest| >= 2 {
      assert (r.rest + more)[..2] == r.rest[..2];
      assert (r.rest + more)[2..] == r.rest[2..] + more;
    }
    if |r.rest| >= 4 {
      assert (r.rest + more)[..4] == r.rest[..4];
      assert (r.rest + more)[4..] == r.rest[4..] + more;
    }
  }

  lemma {:induction false} ReadU64Extends(r: Rd, more: bytes)
    requires |r.rest| >= 8
    ensures ReadU64(More(r, more)) == (ReadU64(r).0, More(ReadU64(r).1, more))
  {
    hide FromU16, FromU32;
    ReadsExtend(r, more);
    ReadsExtend(ReadU32(r).1, more);
  }

  lemma {:induction false} RawExtends(r: Rd, n: nat, more: bytes)
    requires n <= |r.rest|
    ensures ReadRaw(More(r, more), n) == Got(r.rest[..n], More(Drop(r, n), more))
  {
    assert (r.rest + more)[..n] == r.rest[..n];
    assert (r.rest + more)[n..] == r.rest[n..] + more;
  }

  lemma {:induction false} DropExtends(r: Rd, more: bytes)
    requires r.rest != []
    ensures Drop(More(r, more), 1) == More(Drop(r, 1), more)
    ensures PeekTag(More(r, more)) == PeekTag(r)
  {
    assert (r.rest + more)[1..] == r.rest[1..] + more;
  }

  lemma {:induction false} StrExtends(r: Rd, more: bytes)
    requires r.rest != [] && !r.err && IsStrTag(r.rest[0]) && !TryStr(r).rd.err
    ensures TryStr(More(r, more)).rd == More(TryStr(r).rd, more)
  {
    hide FromU16, FromU32;
    DropExtends(r, more);
    var tag, r1 := r.rest[0], Drop(r, 1);
    if tag < 0xC0 {
      RawExtends(r1, tag - 0xA0, more);
    } else {
      ReadsExtend(r1, more);
      var (n, r2) := if tag == 0xD9 then ReadU8(r1) else if tag == 0xDA then ReadU16(r1) else ReadU32(r1);
      RawExtends(r2, n, more);
    }
  }

  lemma {:induction false} BinExtends(r: Rd, more: bytes)
    requires r.rest != [] && !r.err && IsBinTag(r.rest[0]) && !TryBin(r).rd.err
    ensures TryBin(More(r, more)).rd == More(TryBin(r).rd, more)
  {
    hide FromU16, FromU32;
    DropExtends(r, more);
    var tag, r1 := r.rest[0], Drop(r, 1);
    ReadsExtend(r1, more);
    var (n, r2) := if tag == 0xC4 then ReadU8(r1) else if tag == 0xC5 then ReadU16(r1) else ReadU32(r1);
    RawExtends(r2, n, more);
  }

  lemma {:induction false} HeaderExtends(r: Rd, more: bytes)
    requires r.rest != [] && !r.err && (IsArrTag(r.rest[0]) || IsMapTag(r.rest[0]))
    ensures IsArrTag(r.rest[0]) && !TryArr(r).rd.err ==>
              TryArr(More(r, more)) == Got(TryArr(r).value, More(TryArr(r).rd, more))
    ensures IsMapTag(r.rest[0]) && !TryMap(r).rd.err ==>
              TryMap(More(r, more)) == Got(TryMap(r).value, More(TryMap(r).rd, more))
  {
    hide FromU16, FromU32;
    DropExtends(r, more);
    ReadsExtend(Drop(r, 1), more);
  }

  lemma {:induction false} WordExtends(r: Rd, more: bytes)
    requires r.rest != [] && !r.err && !IsArrTag(r.rest[0]) && !IsMapTag(r.rest[0])
    requires !IsStrTag(r.rest[0]) && !IsBinTag(r.rest[0]) && !SkipScalar(r).err
    ensures SkipScalar(More(r, more)) == More(SkipScalar(r), more)
  {
    var r1 := Drop(r, 1);
    EnoughBytes(r1);
    hide ReadU8, ReadU16, ReadU32, ReadU64, Drop;
    DropExtends(r, more);
    if |r1.rest| >= 8 {
      ReadU64Extends(r1, more);
    }
    ReadsExtend(r1, more);
  }

  lemma {:induction false} EnoughBytes(r: Rd)
    requires !r.err
    ensures !ReadU8(r).1.err ==> |r.rest| >= 1
    ensures !ReadU16(r).1.err ==> |r.rest| >= 2
    ensures !ReadU32(r).1.err ==> |r.rest| >= 4
    ensures !ReadU64(r).1.err ==> |r.rest| >= 8
  {
    hide FromU16, FromU32;
  }

  lemma {:induction false} ScalarExtends(r: Rd, more: bytes)
    requires r.rest != [] && !r.err && !IsArrTag(r.rest[0]) && !IsMapTag(r.rest[0])
    requires !SkipScalar(r).err
    ensures SkipScalar(More(r, more)) == More(SkipScalar(r), more)
  {
    if IsStrTag(r.rest[0]) {
      hide TryStr, TryBin;
      StrExtends(r, more);
    } else if IsBinTag(r.rest[0]) {
      hide TryStr, TryBin;
      BinExtends(r, more);
    } else {
      hide SkipScalar;
      WordExtends(r, more);
    }
  }

  lemma {:induction false} SkipExtends(r: Rd, more: bytes)
    requires !Skip(r).err
    ensures Skip(More(r, more)) == More(Skip(r), more)
    decreases |r.rest|, 0, 0
  {
    if IsArrTag(r.rest[0]) {
      var g := TryArr(r);
      HeaderExtends(r, more);
      SkipManyExtends(g.value, g.rd, more);
    } else if IsMapTag(r.rest[0]) {
      var g := TryMap(r);
      HeaderExtends(r, more);
      SkipManyExtends(2 * g.value, g.rd, more);
    } else {
      ScalarExtends(r, more);
    }
  }

  lemma {:induction false} SkipManyExtends(n: nat, r: Rd, more: bytes)
    requires !SkipMany(n, r).err
    ensures SkipMany(n, More(r, more)) == More(SkipMany(n, r), more)
    decreases |r.rest|, 1, n
  {
    if n > 0 {
      SkipExtends(r, more);
      SkipManyExtends(n - 1, Skip(r), more);
    }
  }

  /** The bytes of exactly one value, in any of its encodings. */
  predicate OneValue(j: bytes) {
    Skip(At(j)) == At([])
  }

  /** One value is exactly what the decoder reads to the last byte. */
  lemma {:induction false} OneValueIsDecodable(j: bytes)
    ensures OneValue(j) <==> Dec(At(j)).Got? && Dec(At(j)).rd == At([])
  {
    SkipAgrees(At(j));
  }

  lemma {:induction false} SkipsOneValue(j: bytes, rest: bytes)
    requires OneValue(j)
    ensures Skip(At(j + rest)) == At(rest)
  {
    SkipExtends(At(j), rest);
    assert [] + rest == rest;
  }

  lemma {:induction false} EncodingIsOneValue(v: Value)
    requires Sized(v)
    ensures OneValue(Enc(v))
  {
    RoundTrip(v, []);
    assert Enc(v) + [] == Enc(v);
    SkipAgrees(At(Enc(v)));
  }
}
