/** The wire messages of c/src/codec.c: the seven encoders and the tolerant decoder. */
module Message {
  import opened Bytes
  import opened Mpack

  // Field names and message types, spelled out in ASCII.
  const ID: bytes := [0x69, 0x64]
  const TYPE: bytes := [0x74, 0x79, 0x70, 0x65]
  const FUNC: bytes := [0x66, 0x75, 0x6E, 0x63]
  const ARGS: bytes := [0x61, 0x72, 0x67, 0x73]
  const STREAM: bytes := [0x73, 0x74, 0x72, 0x65, 0x61, 0x6D]
  const RESULT: bytes := [0x72, 0x65, 0x73, 0x75, 0x6C, 0x74]
  const ERROR_TYPE: bytes := [0x65, 0x72, 0x72, 0x6F, 0x72, 0x5F, 0x74, 0x79, 0x70, 0x65]
  const MESSAGE: bytes := [0x6D, 0x65, 0x73, 0x73, 0x61, 0x67, 0x65]

  const REQUEST: bytes := [0x72, 0x65, 0x71, 0x75, 0x65, 0x73, 0x74]
  const RESPONSE: bytes := [0x72, 0x65, 0x73, 0x70, 0x6F, 0x6E, 0x73, 0x65]
  const ERROR: bytes := [0x65, 0x72, 0x72, 0x6F, 0x72]
  const STREAM_CHUNK: bytes := STREAM + [0x5F, 0x63, 0x68, 0x75, 0x6E, 0x6B]
  const STREAM_END: bytes := STREAM + [0x5F, 0x65, 0x6E, 0x64]
  const STREAM_CLOSE: bytes := STREAM + [0x5F, 0x63, 0x6C, 0x6F, 0x73, 0x65]

  /** The error type written when none is given. */
  const DEFAULT_ERROR: bytes := [0x45, 0x72, 0x72, 0x6F, 0x72]

  /** The low bytes of a literal. */
  function Ascii(s: string): (r: bytes)
    ensures |r| == |s|
  {
    seq(|s|, i requires 0 <= i < |s| => s[i] as int % 0x100)
  }

  /** The names are those of the protocol. */
  lemma {:induction false} FieldsSpelled()
    ensures ID == Ascii("id") && TYPE == Ascii("type") && FUNC == Ascii("func") && ARGS == Ascii("args")
    ensures STREAM == Ascii("stream") && RESULT == Ascii("result") && MESSAGE == Ascii("message")
  {
  }

  lemma {:induction false} TypesSpelled()
    ensures REQUEST == Ascii("request") && RESPONSE == Ascii("response") && ERROR == Ascii("error")
    ensures DEFAULT_ERROR == Ascii("Error") && ERROR_TYPE == Ascii("error_type")
  {
  }

  lemma {:induction false} StreamTypesSpelled()
    ensures STREAM_CHUNK == Ascii("stream_chunk") && STREAM_END == Ascii("stream_end") && STREAM_CLOSE == Ascii("stream_close")
  {
  }

  /** A C string is what precedes the first NUL. */
  function CStr(s: bytes): (r: bytes)
    ensures r <= s && 0 !in r && (|r| < |s| ==> s[|r|] == 0)
  {
    if s == [] || s[0] == 0 then [] else [s[0]] + CStr(s[1..])
  }

  /** `strcmp(a, b) == 0` for a decoded string and a literal without NULs. */
  predicate StrEq(a: Option<bytes>, literal: bytes) {
    a.Some? && CStr(a.value) == literal
  }

  // ---------------------------------------------------------------------------
  // What the encoders write
  // ---------------------------------------------------------------------------

  /** The arguments of the seven encoders; a bidi request is a request with `stream` set. */
  datatype Outgoing =
    | Request(id: uint64, func: Option<bytes>, args: seq<Value>, stream: bool)
    | Response(id: uint64, result: Value)
    | Error(id: uint64, errorType: Option<bytes>, message: Option<bytes>)
    | StreamChunk(id: uint64, result: Value)
    | StreamEnd(id: uint64)
    | StreamClose(id: uint64)

  /** One key and value of a message map. The last two constructors are entries no encoder writes. */
  datatype Entry =
    | EId(id: uint64)
    | EType(s: bytes)
    | EFunc(s: bytes)
    | EArgs(args: seq<Value>)
    | EStream(b: bool)
    | EResult(v: Value)
    | EErrorType(s: bytes)
    | EMessage(s: bytes)
    | EUnknown(key: bytes, val: bytes)
    | EOddKey(rawKey: bytes, val: bytes)

  function TextOr(s: Option<bytes>, default: bytes): bytes {
    if s.Some? then CStr(s.value) else default
  }

  function Entries(m: Outgoing): seq<Entry> {
    match m
    case Request(id, func, args, stream) =>
      [EId(id), EType(REQUEST), EFunc(TextOr(func, [])), EArgs(args)] + (if stream then [EStream(true)] else [])
    case Response(id, v) => [EId(id), EType(RESPONSE), EResult(v)]
    case Error(id, t, s) => [EId(id), EType(ERROR), EErrorType(TextOr(t, DEFAULT_ERROR)), EMessage(TextOr(s, []))]
    case StreamChunk(id, v) => [EId(id), EType(STREAM_CHUNK), EResult(v)]
    case StreamEnd(id) => [EId(id), EType(STREAM_END)]
    case StreamClose(id) => [EId(id), EType(STREAM_CLOSE)]
  }

  function KeyOf(e: Entry): bytes {
    match e
    case EId(_) => ID
    case EType(_) => TYPE
    case EFunc(_) => FUNC
    case EArgs(_) => ARGS
    case EStream(_) => STREAM
    case EResult(_) => RESULT
    case EErrorType(_) => ERROR_TYPE
    case EMessage(_) => MESSAGE
    case EUnknown(k, _) => k
    case EOddKey(_, _) => []
  }

  function KeyBytes(e: Entry): bytes {
    if e.EOddKey? then e.rawKey else EncStr(KeyOf(e))
  }

  function ValBytes(e: Entry): bytes {
    match e
    case EId(id) => EncInt(ToSigned(id))
    case EType(s) => EncStr(s)
    case EFunc(s) => EncStr(s)
    case EArgs(vs) => ArrHeader(|vs|) + EncItems(vs)
    case EStream(b) => EncBool(b)
    case EResult(v) => Enc(v)
    case EErrorType(s) => EncStr(s)
    case EMessage(s) => EncStr(s)
    case EUnknown(_, j) => j
    case EOddKey(_, j) => j
  }

  function EntryBytes(e: Entry): bytes {
    KeyBytes(e) + ValBytes(e)
  }

  function EncEntries(es: seq<Entry>): bytes {
    if es == [] then [] else EntryBytes(es[0]) + EncEntries(es[1..])
  }

  /** A message map with the given entries, in the given order. */
  function EncMap(es: seq<Entry>): bytes {
    MapHeader(|es|) + EncEntries(es)
  }

  function Encode(m: Outgoing): bytes {
    EncMap(Entries(m))
  }

  // ---------------------------------------------------------------------------
  // callwire_codec_decode
  // ---------------------------------------------------------------------------

  /** `callwire_wire_message_t`; a NULL string is None. */
  datatype Message = Message(
    id: uint64,
    msgType: Option<bytes>,
    func: Option<bytes>,
    args: seq<Value>,
    stream: bool,
    result: Value,
    errorType: Option<bytes>,
    message: Option<bytes>)

  const Blank := Message(0, None, None, [], false, Null, None, None)

  /** The argument loop ignores the status of each decode; a failed slot keeps its zeroed type. */
  function DecArgs(n: nat, r: Rd): (seq<Value>, Rd) {
    if n == 0 then ([], r)
    else
      var g := Dec(r);
      var (vs, r') := DecArgs(n - 1, g.rd);
      ([if g.Got? then g.value else Null] + vs, r')
  }

  function DecText(r: Rd, old_: Option<bytes>): (Option<bytes>, Rd) {
    match TryStr(r)
    case Got(s, r') => (Some(s), r')
    case Miss(r') => (old_, Skip(r'))
  }

  function DecId(m: Message, r: Rd): (Message, Rd) {
    match TryInt(r)
    case Got(i, r') => (m.(id := ToUnsigned(i)), r')
    case Miss(r') => (m, Skip(r'))
  }

  function DecArgsField(m: Message, r: Rd): (Message, Rd) {
    match TryArr(r)
    case Got(n, r') => var (vs, r2) := DecArgs(n, r'); (m.(args := vs), r2)
    case Miss(r') => (m, Skip(r'))
  }

  function DecStream(m: Message, r: Rd): (Message, Rd) {
    match TryBool(r)
    case Got(b, r') => (m.(stream := b), r')
    case Miss(r') => (m, Skip(r'))
  }

  function DecResult(m: Message, r: Rd): (Message, Rd) {
    match Dec(r)
    case Got(v, r') => (m.(result := v), r')
    case Miss(r') => (m, r')
  }

  /** The value that follows a string key. */
  function DecField(key: bytes, m: Message, r: Rd): (Message, Rd) {
    if key == ID then DecId(m, r)
    else if key == TYPE then var (s, r') := DecText(r, m.msgType); (m.(msgType := s), r')
    else if key == FUNC then var (s, r') := DecText(r, m.func); (m.(func := s), r')
    else if key == ARGS then DecArgsField(m, r)
    else if key == STREAM then DecStream(m, r)
    else if key == RESULT then DecResult(m, r)
    else if key == ERROR_TYPE then var (s, r') := DecText(r, m.errorType); (m.(errorType := s), r')
    else if key == MESSAGE then var (s, r') := DecText(r, m.message); (m.(message := s), r')
    else (m, Skip(r))
  }

  /** One round of the loop; a key that is not a string is skipped with its value, without the error check. */
  function DecLoop(n: nat, m: Message, r: Rd): Option<Message> {
    if n == 0 then if r.err then None else Some(m)
    else
      match TryStr(r)
      case Miss(r1) => DecLoop(n - 1, m, Skip(Skip(r1)))
      case Got(key, r1) =>
        var (m', r2) := DecField(key, m, r1);
        if r2.err then None else DecLoop(n - 1, m', r2)
  }

  function Decode(payload: bytes): Option<Message> {
    match TryMap(Rd(payload, false))
    case Miss(_) => None
    case Got(n, r) => DecLoop(n, Blank, r)
  }
}
