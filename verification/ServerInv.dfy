/** What every step of the protocol engine keeps. */
module ServerInv {
  import opened Bytes
  import opened Framing
  import opened Mpack
  import opened Message
  import opened StreamInput
  import opened WriteLock
  import opened Server

  // ---------------------------------------------------------------------------
  // The write lock and the threads agree
  // ---------------------------------------------------------------------------

  predicate LockInv(s: Conn) {
    && (s.out.hold.Some? ==>
          var h := s.out.hold.value;
          && h.who in s.calls
          && s.calls[h.who].phase == if Sending(s.out) then Writing(h.msg) else Written(h.msg))
    && forall id :: id in s.calls && s.calls[id].phase.Written? ==> HoldsLock(s, id)
  }

  // ---------------------------------------------------------------------------
  // The wire log, split by request
  // ---------------------------------------------------------------------------

  /** The messages on the wire that carry the id, in wire order. */
  function FramesOf(log: seq<Outgoing>, id: uint64): seq<Outgoing> {
    if log == [] then []
    else
      var last := log[|log| - 1];
      FramesOf(log[..|log| - 1], id) + (if last.id == id then [last] else [])
  }

  lemma {:induction false} FramesOfAppend(log: seq<Outgoing>, m: Outgoing, id: uint64)
    ensures FramesOf(log + [m], id) == FramesOf(log, id) + (if m.id == id then [m] else [])
  {
    assert (log + [m])[..|log|] == log;
  }

  predicate LogInv(s: Conn) {
    && (forall id :: id in s.calls ==> FramesOf(s.out.log, id) == s.calls[id].emitted)
    && (forall i :: 0 <= i < |s.out.log| ==> s.out.log[i].id in s.calls)
  }

  // ---------------------------------------------------------------------------
  // The grammar of one request
  // ---------------------------------------------------------------------------

  predicate Chunky(id: uint64, ms: seq<Outgoing>) {
    forall i :: 0 <= i < |ms| ==> ms[i].StreamChunk? && ms[i].id == id
  }

  /** A message this kind of handler may end with. */
  predicate MayEnd(kind: Kind, m: Outgoing) {
    match m
    case Response(_, _) => kind.Unary? || kind.ClientStream?
    case StreamEnd(_) => Emits(kind)
    case Error(_, _, _) => true
    case _ => false
  }

  /** The message a thread is about to put, or has just put, on the wire. */
  predicate Speaks(id: uint64, c: Call, m: Outgoing) {
    && m.id == id
    && Fits(m)
    && (Terminal(m) ==> c.outcome == Some(m))
    && (!Terminal(m) ==> m.StreamChunk? && Emits(c.kind) && c.outcome.None?)
  }

  /** Chunks only, then at most the outcome. */
  predicate ChunksThen(id: uint64, ms: seq<Outgoing>, outcome: Outgoing) {
    Chunky(id, ms) || (ms != [] && ms[|ms| - 1] == outcome && Chunky(id, ms[..|ms| - 1]))
  }

  /** The whole word: chunks, then the outcome exactly if its frame is small enough to be sent. */
  predicate CompleteWord(id: uint64, ms: seq<Outgoing>, outcome: Outgoing) {
    if Fits(outcome) then ms != [] && ms[|ms| - 1] == outcome && Chunky(id, ms[..|ms| - 1])
    else Chunky(id, ms)
  }

  predicate Shape(id: uint64, c: Call, broken: bool) {
    && (!Emits(c.kind) ==> forall i :: 0 <= i < |c.emitted| ==> !c.emitted[i].StreamChunk?)
    && (c.outcome.Some? ==> c.outcome.value.id == id && MayEnd(c.kind, c.outcome.value))
    && (c.outcome.Some? && !Fits(c.outcome.value) ==> c.outcome.value.Response?)
    && match c.phase
       case Running => Chunky(id, c.emitted) && c.outcome.None? && !c.kind.Refused?
       case Writing(m) => Chunky(id, c.emitted) && Speaks(id, c, m)
       case Written(m) =>
         Speaks(id, c, m) && c.emitted != [] && c.emitted[|c.emitted| - 1] == m && Chunky(id, c.emitted[..|c.emitted| - 1])
       case _ =>
         && c.outcome.Some?
         && ChunksThen(id, c.emitted, c.outcome.value)
         && (!broken ==> CompleteWord(id, c.emitted, c.outcome.value))
  }

  predicate ShapeInv(s: Conn) {
    forall id :: id in s.calls ==> Shape(id, s.calls[id], s.out.broken)
  }

  // ---------------------------------------------------------------------------
  // The input queues
  // ---------------------------------------------------------------------------

  /** A queue is registered exactly while its streaming-input call is not finished. */
  ghost predicate QueueInv(s: Conn) {
    forall id :: id in s.queues <==> id in s.calls && HasInput(s.calls[id].kind) && !s.calls[id].phase.Done?
  }

  /** The items addressed to `id` in the messages from index `from` on, in wire order. */
  function CellsFor(id: uint64, input: seq<Message>, from: nat): seq<Cell> {
    if |input| <= from then []
    else
      var n := |input| - 1;
      CellsFor(id, input[..n], from) +
      (if IsStreamFrame(input[n]) && input[n].id == id then [Cell(ItemFor(input[n]), n)] else [])
  }

  lemma {:induction false} RequestIsNoStream(m: Message)
    requires StrEq(m.msgType, REQUEST)
    ensures !IsStreamFrame(m)
  {
    hide CStr;
  }

  lemma {:induction false} CellsForAppend(id: uint64, input: seq<Message>, m: Message, from: nat)
    requires from <= |input|
    ensures CellsFor(id, input + [m], from) ==
            CellsFor(id, input, from) +
            (if IsStreamFrame(m) && m.id == id then [Cell(ItemFor(m), |input|)] else [])
  {
    assert (input + [m])[..|input|] == input;
  }

  predicate Closed(s: Conn, id: uint64) {
    s.loop.Ended? || (s.loop.Closing? && id !in s.loop.todo)
  }

  /** Everything routed to a call: what arrived for its id since it was registered, then the closing mark. */
  function Routed(s: Conn, id: uint64): seq<Cell>
    requires id in s.calls
  {
    CellsFor(id, s.input, s.calls[id].src + 1) + (if Closed(s, id) then [Cell(End, |s.input|)] else [])
  }

  function Pending(s: Conn, id: uint64): seq<Cell> {
    if s.loop.Found? && s.loop.id == id then [s.loop.cell] else []
  }

  /** Nothing lost, duplicated, reordered or misrouted between the wire and the handler. */
  predicate Flow(s: Conn, id: uint64)
    requires id in s.calls
  {
    var c := s.calls[id];
    && c.src < |s.input|
    && s.input[c.src].id == id
    && StrEq(s.input[c.src].msgType, REQUEST)
    && (!c.kind.Refused? ==> c.args == s.input[c.src].args)
    && (id in s.queues ==> c.taken + s.queues[id] + Pending(s, id) == Routed(s, id))
    && c.taken <= Routed(s, id)
  }

  predicate FlowInv(s: Conn) {
    forall id :: id in s.calls ==> Flow(s, id)
  }

  // ---------------------------------------------------------------------------
  // The read loop
  // ---------------------------------------------------------------------------

  predicate LoopInv(s: Conn) {
    && (s.loop.Found? ==>
          && s.loop.cell.src + 1 == |s.input|
          && IsStreamFrame(s.input[s.loop.cell.src])
          && s.input[s.loop.cell.src].id == s.loop.id
          && s.loop.cell.item == ItemFor(s.input[s.loop.cell.src]))
    && (s.loop.Refusing? ==> s.loop.id in s.calls && s.calls[s.loop.id].kind.Refused?)
    && (s.loop.Closing? ==> s.loop.todo <= s.queues.Keys)
    && (forall id :: id in s.calls && s.calls[id].kind.Refused? && !s.calls[id].phase.Done? ==> s.loop == Refusing(id))
  }

  ghost predicate Inv(s: Conn) {
    && Exported(s.registry)
    && OutputInv(s.out)
    && LockInv(s)
    && LogInv(s)
    && ShapeInv(s)
    && QueueInv(s)
    && FlowInv(s)
    && LoopInv(s)
  }

  lemma {:induction false} InitInv(registry: seq<Handler>)
    requires Exported(registry)
    ensures Inv(Init(registry))
  {
    InitOutput();
  }

  // ---------------------------------------------------------------------------
  // Messages that always fit
  // ---------------------------------------------------------------------------

  lemma {:induction false} StrLength(s: bytes)
    ensures |EncStr(s)| <= |s| + 5
  {
  }

  lemma {:induction false} EntryLength(e: Entry, n: nat)
    requires e.EId? || ((e.EType? || e.EErrorType? || e.EMessage?) && |e.s| <= n)
    ensures |EntryBytes(e)| <= n + 40
  {
    hide EncStr, EncInt;
    StrLength(KeyOf(e));
    match e
    case EId(_) =>
    case EType(s) => StrLength(s);
    case EErrorType(s) => StrLength(s);
    case EMessage(s) => StrLength(s);
  }

  lemma {:induction false} EntriesLength(es: seq<Entry>, n: nat)
    requires forall i :: 0 <= i < |es| ==> |EntryBytes(es[i])| <= n
    ensures |EncEntries(es)| <= n * |es|
  {
    hide EntryBytes;
    if es != [] {
      EntriesLength(es[1..], n);
      assert n * |es| == n + n * (|es| - 1);
    }
  }

  lemma {:induction false} SmallEntries(es: seq<Entry>)
    requires |es| <= 5
    requires forall i :: 0 <= i < |es| ==>
      es[i].EId? || ((es[i].EType? || es[i].EErrorType? || es[i].EMessage?) && |es[i].s| <= 1000)
    ensures |EncMap(es)| <= MAX_FRAME
  {
    hide EntryBytes, MapHeader;
    forall i | 0 <= i < |es| ensures |EntryBytes(es[i])| <= 1040 {
      EntryLength(es[i], 1000);
    }
    EntriesLength(es, 1040);
  }

  /** The fixed error texts and the end mark are far below the frame limit. */
  lemma {:induction false} SmallFits(id: uint64, t: bytes, x: bytes)
    requires |t| <= 1000 && |x| <= 1000
    ensures Fits(Error(id, Some(t), Some(x))) && Fits(StreamEnd(id))
  {
    hide EntryBytes, CStr, EncMap;
    SmallEntries(Entries(Error(id, Some(t), Some(x))));
    SmallEntries(Entries(StreamEnd(id)));
  }
}
