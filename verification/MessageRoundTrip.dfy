/** Every encoder is undone by the decoder, in any field order and with any unknown fields in between. */
module MessageRoundTrip {
  import opened Bytes
  import opened Mpack
  import opened ValueRoundTrip
  import opened SkipValue
  import opened Message

  /** What the receiver of an encoded message must hold, stated field by field. */
  function Received(m: Outgoing): Message {
    match m
    case Request(id, func, args, stream) =>
      Blank.(id := id, msgType := Some(REQUEST), func := Some(TextOr(func, [])), args := args, stream := stream)
    case Response(id, v) => Blank.(id := id, msgType := Some(RESPONSE), result := v)
    case Error(id, t, s) =>
      Blank.(id := id, msgType := Some(ERROR), errorType := Some(TextOr(t, DEFAULT_ERROR)), message := Some(TextOr(s, [])))
    case StreamChunk(id, v) => Blank.(id := id, msgType := Some(STREAM_CHUNK), result := v)
    case StreamEnd(id) => Blank.(id := id, msgType := Some(STREAM_END))
    case StreamClose(id) => Blank.(id := id, msgType := Some(STREAM_CLOSE))
  }

  predicate Known(e: Entry) {
    !e.EUnknown? && !e.EOddKey?
  }

  predicate KnownKey(k: bytes) {
    k == ID || k == TYPE || k == FUNC || k == ARGS || k == STREAM || k == RESULT || k == ERROR_TYPE || k == MESSAGE
  }

  /** No truncation in a known entry; one complete value in an unknown one. */
  predicate ValidEntry(e: Entry) {
    match e
    case EType(s) => |s| < TWO_32
    case EFunc(s) => |s| < TWO_32
    case EArgs(vs) => |vs| < TWO_32 && SizedAll(vs)
    case EResult(v) => Sized(v)
    case EErrorType(s) => |s| < TWO_32
    case EMessage(s) => |s| < TWO_32
    case EUnknown(k, j) => |k| < TWO_32 && !KnownKey(k) && OneValue(j)
    case EOddKey(k, j) => OneValue(k) && !IsStrTag(k[0]) && OneValue(j)
    case _ => true
  }

  /** The effect of one entry on the message under construction. */
  function Apply(e: Entry, m: Message): Message {
    match e
    case EId(id) => m.(id := id)
    case EType(s) => m.(msgType := Some(s))
    case EFunc(s) => m.(func := Some(s))
    case EArgs(vs) => m.(args := vs)
    case EStream(b) => m.(stream := b)
    case EResult(v) => m.(result := v)
    case EErrorType(s) => m.(errorType := Some(s))
    case EMessage(s) => m.(message := Some(s))
    case _ => m
  }

  function Fold(es: seq<Entry>, m: Message): Message {
    if es == [] then m else Fold(es[1..], Apply(es[0], m))
  }

  // ---------------------------------------------------------------------------
  // One entry
  // ---------------------------------------------------------------------------

  lemma {:induction false} ArgsBack(vs: seq<Value>, rest: bytes)
    requires SizedAll(vs)
    ensures DecArgs(|vs|, At(EncItems(vs) + rest)) == (vs, At(rest))
  {
    hide Dec, Enc;
    if vs == [] {
      assert EncItems(vs) + rest == rest;
    } else {
      var tail := EncItems(vs[1..]) + rest;
      assert EncItems(vs) + rest == Enc(vs[0]) + tail;
      RoundTrip(vs[0], tail);
      ArgsBack(vs[1..], rest);
      assert vs == [vs[0]] + vs[1..];
    }
  }

  lemma {:induction false} ArgsFieldBack(vs: seq<Value>, m: Message, rest: bytes)
    requires |vs| < TWO_32 && SizedAll(vs)
    ensures DecArgsField(m, At(ArrHeader(|vs|) + EncItems(vs) + rest)) == (m.(args := vs), At(rest))
  {
    hide TryArr, Skip, ArrHeader;
    var body := EncItems(vs) + rest;
    assert ArrHeader(|vs|) + EncItems(vs) + rest == ArrHeader(|vs|) + body;
    ArrHeaderBack(|vs|, body);
    ArgsBack(vs, rest);
  }

  lemma {:induction false} StreamBack(b: bool, m: Message, rest: bytes)
    ensures DecStream(m, At(EncBool(b) + rest)) == (m.(stream := b), At(rest))
  {
    assert (EncBool(b) + rest)[1..] == rest;
  }

  lemma {:induction false} SignedBack(u: uint64)
    ensures ToUnsigned(ToSigned(u)) == u
  {
  }

  lemma {:induction false} ResultBack(v: Value, m: Message, rest: bytes)
    requires Sized(v)
    ensures DecResult(m, At(Enc(v) + rest)) == (m.(result := v), At(rest))
  {
    hide Dec, Enc;
    RoundTrip(v, rest);
  }

  /** The value of a known or unknown string-keyed entry lands in its own field and nowhere else. */
  lemma {:induction false} FieldBack(e: Entry, m: Message, rest: bytes)
    requires ValidEntry(e) && !e.EOddKey?
    ensures DecField(KeyOf(e), m, At(ValBytes(e) + rest)) == (Apply(e, m), At(rest))
  {
    hide TryStr, TryInt, TryBool, TryArr, Dec, Enc, Skip, EncStr, EncInt, EncItems, ArrHeader, DecArgsField, DecStream, DecResult;
    match e
    case EId(id) =>
      IntBack(ToSigned(id), rest);
      SignedBack(id);
    case EType(s) => StrBack(s, rest);
    case EFunc(s) => StrBack(s, rest);
    case EArgs(vs) => ArgsFieldBack(vs, m, rest);
    case EStream(b) => StreamBack(b, m, rest);
    case EResult(v) => ResultBack(v, m, rest);
    case EErrorType(s) => StrBack(s, rest);
    case EMessage(s) => StrBack(s, rest);
    case EUnknown(k, j) => SkipsOneValue(j, rest);
  }

  lemma {:induction false} KeyIsShort(e: Entry)
    requires ValidEntry(e) && !e.EOddKey?
    ensures |KeyOf(e)| < TWO_32
  {
  }

  lemma {:induction false} NotAString(j: bytes, rest: bytes)
    requires j != [] && !IsStrTag(j[0])
    ensures TryStr(At(j + rest)) == Miss(At(j + rest))
  {
    hide FromU16, FromU32;
  }

  /** One round of the decoder's loop consumes exactly one entry. */
  lemma {:induction false} EntryStep(e: Entry, n: nat, m: Message, rest: bytes)
    requires ValidEntry(e) && n > 0
    ensures DecLoop(n, m, At(EntryBytes(e) + rest)) == DecLoop(n - 1, Apply(e, m), At(rest))
  {
    hide TryStr, DecField, Skip, EncStr, ValBytes;
    var tail := ValBytes(e) + rest;
    assert EntryBytes(e) + rest == KeyBytes(e) + tail;
    if e.EOddKey? {
      assert e.rawKey != [] by { OneValueNonempty(e.rawKey); }
      NotAString(e.rawKey, tail);
      SkipsOneValue(e.rawKey, tail);
      assert ValBytes(e) == e.val by { OddVal(e); }
      SkipsOneValue(e.val, rest);
    } else {
      KeyIsShort(e);
      StrBack(KeyOf(e), tail);
      FieldBack(e, m, rest);
    }
  }

  lemma {:induction false} OneValueNonempty(j: bytes)
    requires OneValue(j)
    ensures j != []
  {
  }

  lemma {:induction false} OddVal(e: Entry)
    requires e.EOddKey?
    ensures ValBytes(e) == e.val
  {
  }

  lemma {:induction false} LoopEnds(m: Message, rest: bytes)
    ensures DecLoop(0, m, At(rest)) == Some(m)
  {
  }

  lemma {:induction false} LoopFolds(es: seq<Entry>, m: Message, rest: bytes)
    requires forall e :: e in es ==> ValidEntry(e)
    ensures DecLoop(|es|, m, At(EncEntries(es) + rest)) == Some(Fold(es, m))
  {
    hide EntryBytes, ValidEntry, Apply, DecLoop;
    if es == [] {
      assert EncEntries(es) + rest == rest;
      LoopEnds(m, rest);
    } else {
      var tail := EncEntries(es[1..]) + rest;
      assert EncEntries(es) + rest == EntryBytes(es[0]) + tail;
      EntryStep(es[0], |es|, m, tail);
      LoopFolds(es[1..], Apply(es[0], m), rest);
    }
  }

  // ---------------------------------------------------------------------------
  // Order and unknown entries do not matter
  // ---------------------------------------------------------------------------

  /** The entry writes nothing that differs from `m`. */
  predicate Agrees(e: Entry, m: Message) {
    Apply(e, m) == m
  }

  datatype Field = FId | FType | FFunc | FArgs | FStream | FResult | FErrorType | FMessage

  function FieldOf(e: Entry): Option<Field> {
    match e
    case EId(_) => Some(FId)
    case EType(_) => Some(FType)
    case EFunc(_) => Some(FFunc)
    case EArgs(_) => Some(FArgs)
    case EStream(_) => Some(FStream)
    case EResult(_) => Some(FResult)
    case EErrorType(_) => Some(FErrorType)
    case EMessage(_) => Some(FMessage)
    case _ => None
  }

  predicate SameField(f: Field, a: Message, b: Message) {
    match f
    case FId => a.id == b.id
    case FType => a.msgType == b.msgType
    case FFunc => a.func == b.func
    case FArgs => a.args == b.args
    case FStream => a.stream == b.stream
    case FResult => a.result == b.result
    case FErrorType => a.errorType == b.errorType
    case FMessage => a.message == b.message
  }

  predicate Writes(es: seq<Entry>, f: Field) {
    exists i :: 0 <= i < |es| && FieldOf(es[i]) == Some(f)
  }

  /** Each field of `m` is either already in `acc` or still to be written by some entry of `es`. */
  predicate Covers(es: seq<Entry>, acc: Message, m: Message) {
    forall f: Field :: SameField(f, acc, m) || Writes(es, f)
  }

  lemma {:induction false} ApplyOneField(e: Entry, acc: Message, m: Message, f: Field)
    requires Agrees(e, m)
    ensures FieldOf(e) == Some(f) ==> SameField(f, Apply(e, acc), m)
    ensures FieldOf(e) != Some(f) && SameField(f, acc, m) ==> SameField(f, Apply(e, acc), m)
  {
  }

  lemma {:induction false} CoversTail(es: seq<Entry>, acc: Message, m: Message)
    requires es != [] && Agrees(es[0], m) && Covers(es, acc, m)
    ensures Covers(es[1..], Apply(es[0], acc), m)
  {
    hide Apply, Agrees, SameField, FieldOf;
    forall f: Field ensures SameField(f, Apply(es[0], acc), m) || Writes(es[1..], f) {
      ApplyOneField(es[0], acc, m, f);
      if Writes(es, f) && FieldOf(es[0]) != Some(f) {
        var i :| 0 <= i < |es| && FieldOf(es[i]) == Some(f);
        assert es[1..][i - 1] == es[i];
      }
    }
  }

  lemma {:induction false} SameMessage(a: Message, b: Message)
    requires forall f: Field :: SameField(f, a, b)
    ensures a == b
  {
    assert SameField(FId, a, b) && SameField(FType, a, b) && SameField(FFunc, a, b) && SameField(FArgs, a, b);
    assert SameField(FStream, a, b) && SameField(FResult, a, b);
    assert SameField(FErrorType, a, b) && SameField(FMessage, a, b);
  }

  lemma {:induction false} FoldReaches(es: seq<Entry>, acc: Message, m: Message)
    requires forall e :: e in es ==> Agrees(e, m)
    requires Covers(es, acc, m)
    ensures Fold(es, acc) == m
  {
    hide Apply, Agrees, SameField, FieldOf;
    if es == [] {
      SameMessage(acc, m);
    } else {
      CoversTail(es, acc, m);
      FoldReaches(es[1..], Apply(es[0], acc), m);
    }
  }

  /** `es` holds the entries of `m`, in any order, possibly repeated, among any unknown ones. */
  predicate Carries(es: seq<Entry>, m: Outgoing) {
    && (forall e :: e in Entries(m) ==> e in es)
    && (forall e :: e in es ==> (Known(e) ==> e in Entries(m)) && (!Known(e) ==> ValidEntry(e)))
  }

  lemma {:induction false} EntriesAgree(m: Outgoing, e: Entry)
    requires e in Entries(m)
    ensures Agrees(e, Received(m))
  {
  }

  lemma {:induction false} CarriesCovers(es: seq<Entry>, m: Outgoing)
    requires Carries(es, m)
    ensures Covers(es, Blank, Received(m))
  {
    forall f: Field ensures SameField(f, Blank, Received(m)) || Writes(es, f) {
      if !SameField(f, Blank, Received(m)) {
        var e := Writer(m, f);
        var i :| 0 <= i < |es| && es[i] == e;
        assert FieldOf(es[i]) == Some(f);
      }
    }
  }

  /** The entry that sets a field the message does not leave blank. */
  lemma {:induction false} Writer(m: Outgoing, f: Field) returns (e: Entry)
    requires !SameField(f, Blank, Received(m))
    ensures e in Entries(m) && FieldOf(e) == Some(f)
  {
    var n := Entries(m);
    e := if f.FId? then n[0]
         else if f.FType? then n[1]
         else if f.FFunc? || f.FResult? || f.FErrorType? then n[2]
         else if f.FArgs? || f.FMessage? then n[3]
         else n[4];
  }

  /**
   * The decoder's tolerance: any map holding the message's entries in any order, with any
   * unknown or non-string keys around them and any bytes after the map, is read as the message.
   */
  lemma {:induction false} DecodesInAnyOrder(es: seq<Entry>, m: Outgoing, trailing: bytes)
    requires |es| < TWO_32
    requires Carries(es, m) && forall e :: e in Entries(m) ==> ValidEntry(e)
    ensures Decode(EncMap(es) + trailing) == Some(Received(m))
  {
    hide Entries, Received, ValidEntry, EntryBytes, DecField, Skip, TryStr, TryMap, MapHeader;
    var body := EncEntries(es) + trailing;
    assert EncMap(es) + trailing == MapHeader(|es|) + body;
    MapHeaderBack(|es|, body);
    LoopFolds(es, Blank, trailing);
    forall e | e in es ensures Agrees(e, Received(m)) {
      if Known(e) { EntriesAgree(m, e); }
    }
    CarriesCovers(es, m);
    FoldReaches(es, Blank, Received(m));
  }

  // ---------------------------------------------------------------------------
  // The plain round trip
  // ---------------------------------------------------------------------------

  lemma {:induction false} EntryFits(es: seq<Entry>, e: Entry)
    requires e in es
    ensures |ValBytes(e)| <= |EncEntries(es)|
  {
    hide EntryBytes, ValBytes;
    if e == es[0] {
      assert EntryBytes(e) == KeyBytes(e) + ValBytes(e) by { PartsOf(e); }
    } else {
      EntryFits(es[1..], e);
    }
  }

  lemma {:induction false} PartsOf(e: Entry)
    ensures EntryBytes(e) == KeyBytes(e) + ValBytes(e)
  {
  }

  lemma {:induction false} ShortEntryIsValid(e: Entry)
    requires Known(e) && |ValBytes(e)| < TWO_32
    ensures ValidEntry(e)
  {
    match e
    case EArgs(vs) => ShortItemsAreSized(vs);
    case EResult(v) => ShortIsSized(v);
    case _ =>
  }

  lemma {:induction false} EntriesKnown(m: Outgoing)
    ensures |Entries(m)| <= 5 && forall e :: e in Entries(m) ==> Known(e)
  {
  }

  /** Every message whose encoding is shorter than 4 GiB, with every 64-bit id, survives the round trip. */
  lemma {:induction false} MessageBack(m: Outgoing)
    requires |Encode(m)| < TWO_32
    ensures Decode(Encode(m)) == Some(Received(m))
  {
    hide ValidEntry, ValBytes, EntryBytes;
    var es := Entries(m);
    EntriesKnown(m);
    forall e | e in es ensures ValidEntry(e) {
      EntryFits(es, e);
      ShortEntryIsValid(e);
    }
    DecodesInAnyOrder(es, m, []);
    assert EncMap(es) + [] == EncMap(es);
  }
}
