/**
 * The whole system: the C client of c/src/client.c, the two directions of the connection,
 * and the protocol engine of c/src/server.c.
 *
 * The client never looks at the id of a frame it reads (c/src/client.c:162). That every frame
 * it reads during a call belongs to that call is a property of client, wire and server together.
 */
module System {
  import opened Bytes
  import opened Framing
  import opened Mpack
  import opened Message
  import opened MessageRoundTrip
  import opened WriteLock
  import opened Server
  import opened ServerInv
  import opened ServerSteps

  /** The four ways to call: unary, server stream, client stream, bidirectional. */
  datatype Form = Plain | Pull | Export | Duplex

  /** Forms whose single read ends the call, whatever message it returns. */
  predicate OneShot(f: Form) {
    f.Plain? || f.Export?
  }

  datatype ClientPhase = Idle | Open(form: Form, closed: bool)

  /**
   * `heard` is what the client has read, by the call it was making; `failed` are the calls that
   * ended because a read found the connection closed.
   */
  datatype Client = Client(nextId: uint64, phase: ClientPhase, heard: map<uint64, seq<Message>>, failed: set<uint64>)

  /** One use of a calling function by the client's program. */
  datatype Ask = Ask(form: Form, func: bytes, args: seq<Value>)

  /**
   * `begun` is every call the program has begun, the n-th under id n; `asked` is every request
   * that was sent, `up` every message the client has sent, the first `consumed` of which the
   * server has read. The client has read `at` bytes of the server's wire, which are its first
   * `read` frames.
   */
  datatype Sys = Sys(
    client: Client,
    begun: seq<Ask>,
    asked: map<uint64, Outgoing>,
    up: seq<Outgoing>,
    consumed: nat,
    srv: Conn,
    at: nat,
    read: nat)

  function InitialSystem(registry: seq<Handler>): Sys {
    Sys(Client(0, Idle, map[], {}), [], map[], [], 0, Init(registry), 0, 0)
  }

  // ---------------------------------------------------------------------------
  // Moves
  // ---------------------------------------------------------------------------

  datatype Move =
    | Begin(form: Form, func: bytes, args: seq<Value>)
    | SendChunk(value: Value)
    | SendClose
    | Stray(m: Outgoing)
    | Read
    | ReadFails
    | Serve(a: Action)

  function RequestOf(id: uint64, f: Form, func: bytes, args: seq<Value>): Outgoing {
    Request(id, Some(func), if f.Export? || f.Duplex? then [] else args, f.Duplex?)
  }

  /** The message that ends the client's half: `stream_close` for a client stream, `stream_end` for a bidi one. */
  function CloseOf(id: uint64, f: Form): Outgoing {
    if f.Export? then StreamClose(id) else StreamEnd(id)
  }

  /** A message of the client's half of a stream. */
  predicate Streamy(m: Outgoing) {
    m.StreamChunk? || m.StreamEnd? || m.StreamClose?
  }

  predicate Streams(z: Sys) {
    z.client.phase.Open? && (z.client.phase.form.Duplex? || (z.client.phase.form.Export? && !z.client.phase.closed))
  }

  predicate MayRead(z: Sys) {
    z.client.phase.Open? && (z.client.phase.form.Export? ==> z.client.phase.closed)
  }

  /** What `callwire_framing_read_frame` would return to the client now. */
  function Incoming(z: Sys): Option<(payload, bytes)> {
    if z.at <= |z.srv.out.wire| then ParseOne(z.srv.out.wire[z.at..]) else None
  }

  /** The client uses a single-read form on a streaming function. */
  predicate Mismatched(registry: seq<Handler>, f: Form, func: bytes) {
    OneShot(f) && FindHandler(registry, func) == Some(Stream)
  }

  /**
   * What client, server and network can do. One call is in flight at a time; a call is over
   * when its reads have ended; ids stay below 2^64.
   *
   * The sending functions of the client take any stream id and look at no state: `Stray` is a
   * stream message for any call that was ever begun, open, closed or over. A read fails when
   * the server has closed the connection and no complete frame is left.
   */
  predicate Can(z: Sys, mv: Move) {
    match mv
    case Begin(f, func, args) => z.client.phase.Idle? && z.client.nextId + 1 < TWO_64
    case SendChunk(v) => Streams(z) && Fits(StreamChunk(z.client.nextId, v))
    case SendClose => Streams(z)
    case Stray(m) => Streamy(m) && Fits(m) && m.id in z.asked
    case Read => MayRead(z) && Incoming(z).Some?
    case ReadFails => MayRead(z) && Incoming(z).None? && z.srv.loop.Ended?
    case Serve(a) =>
      Enabled(z.srv, a) && (a.Receive? ==> z.consumed < |z.up| && a.payload == Encode(z.up[z.consumed]))
  }

  function DoBegin(z: Sys, f: Form, func: bytes, args: seq<Value>): Sys
    requires Can(z, Begin(f, func, args))
  {
    var id := z.client.nextId + 1;
    var m := RequestOf(id, f, func, args);
    var z1 := z.(begun := z.begun + [Ask(f, func, args)]);
    if Fits(m) then
      z1.(client := z.client.(nextId := id, phase := Open(f, false), heard := z.client.heard[id := []]),
          asked := z.asked[id := m], up := z.up + [m])
    else z1.(client := z.client.(nextId := id))
  }

  function DoSendClose(z: Sys): Sys
    requires Can(z, SendClose)
  {
    var f := z.client.phase.form;
    z.(client := z.client.(phase := Open(f, true)), up := z.up + [CloseOf(z.client.nextId, f)])
  }

  /** `callwire_client_stream_recv` and the reads of `callwire_client_call` and `..._export_stream_close`. */
  function DoRead(z: Sys): Sys
    requires Can(z, Read)
  {
    var (p, rest) := Incoming(z).value;
    var z1 := z.(at := |z.srv.out.wire| - |rest|, read := z.read + 1);
    match Decode(p)
    case None => z1.(client := z.client.(phase := Idle))
    case Some(msg) =>
      var id, f := z.client.nextId, z.client.phase.form;
      var h := (if id in z.client.heard then z.client.heard[id] else []) + [msg];
      z1.(client := z.client.(
            phase := if OneShot(f) || !StrEq(msg.msgType, STREAM_CHUNK) then Idle else z.client.phase,
            heard := z.client.heard[id := h]))
  }

  /** `read_wire_message` fails and the call returns an error. */
  function DoReadFails(z: Sys): Sys
    requires Can(z, ReadFails)
  {
    z.(client := z.client.(phase := Idle, failed := z.client.failed + {z.client.nextId}))
  }

  function Do(z: Sys, mv: Move): Sys
    requires Can(z, mv)
  {
    match mv
    case Begin(f, func, args) => DoBegin(z, f, func, args)
    case SendChunk(v) => z.(up := z.up + [StreamChunk(z.client.nextId, v)])
    case SendClose => DoSendClose(z)
    case Stray(m) => z.(up := z.up + [m])
    case Read => DoRead(z)
    case ReadFails => DoReadFails(z)
    case Serve(a) => z.(srv := Next(z.srv, a), consumed := if a.Receive? then z.consumed + 1 else z.consumed)
  }

  /** No end mark has been sent for the call. */
  predicate NotEnded(z: Sys, id: uint64) {
    forall i :: 0 <= i < |z.up| && z.up[i].id == id && Streamy(z.up[i]) ==> z.up[i].StreamChunk?
  }

  /** The call a sending move sends for. */
  function SendsFor(z: Sys, mv: Move): uint64 {
    if mv.Stray? then mv.m.id else z.client.nextId
  }

  predicate IsSend(mv: Move) {
    mv.SendChunk? || mv.SendClose? || mv.Stray?
  }

  /**
   * How careful the client's program is: it may do anything it can, or use no single-read form
   * on a streaming function, or besides that send nothing for a call it has sent an end mark for.
   */
  datatype Care = Anyhow | Matched | Orderly

  predicate Allowed(care: Care, z: Sys, mv: Move) {
    && Can(z, mv)
    && (!care.Anyhow? && mv.Begin? ==> !Mismatched(z.srv.registry, mv.form, mv.func))
    && (care.Orderly? && IsSend(mv) ==> NotEnded(z, SendsFor(z, mv)))
  }

  predicate Run(care: Care, z: Sys, moves: seq<Move>)
    decreases |moves|
  {
    moves == [] || (Allowed(care, z, moves[0]) && Run(care, Do(z, moves[0]), moves[1..]))
  }

  function EndOfRun(care: Care, z: Sys, moves: seq<Move>): Sys
    requires Run(care, z, moves)
    decreases |moves|
  {
    if moves == [] then z else EndOfRun(care, Do(z, moves[0]), moves[1..])
  }

  /** Some run of so careful a client, from the start, leads to `z`. */
  ghost predicate Arrives(care: Care, registry: seq<Handler>, z: Sys) {
    exists moves :: Run(care, InitialSystem(registry), moves) && EndOfRun(care, InitialSystem(registry), moves) == z
  }

  lemma {:induction false} RunOn(care: Care, z: Sys, moves: seq<Move>, mv: Move)
    requires Run(care, z, moves) && Allowed(care, EndOfRun(care, z, moves), mv)
    ensures Run(care, z, moves + [mv]) && EndOfRun(care, z, moves + [mv]) == Do(EndOfRun(care, z, moves), mv)
    decreases |moves|
  {
    hide Can, Do, Mismatched;
    var all := moves + [mv];
    if moves == [] {
      assert all[0] == mv && all[1..] == [];
    } else {
      assert all[0] == moves[0] && all[1..] == moves[1..] + [mv];
      RunOn(care, Do(z, moves[0]), moves[1..], mv);
    }
  }

  lemma {:induction false} Advance(care: Care, registry: seq<Handler>, z: Sys, mv: Move)
    requires Arrives(care, registry, z) && Allowed(care, z, mv)
    ensures Arrives(care, registry, Do(z, mv))
  {
    hide Can, Do, Run, EndOfRun, Allowed;
    var moves :| Run(care, InitialSystem(registry), moves) && EndOfRun(care, InitialSystem(registry), moves) == z;
    RunOn(care, InitialSystem(registry), moves, mv);
  }

  lemma {:induction false} AtStart(care: Care, registry: seq<Handler>)
    ensures Arrives(care, registry, InitialSystem(registry))
  {
    assert Run(care, InitialSystem(registry), []);
  }

  // ---------------------------------------------------------------------------
  // The invariant
  // ---------------------------------------------------------------------------

  /** The call will put no further frame on the wire. */
  predicate Quiet(c: Call) {
    c.phase.Cleanup? || c.phase.Done? || (c.phase.Written? && Terminal(c.phase.msg))
  }

  /** The call the client is making, if any. */
  predicate Current(z: Sys, id: uint64) {
    z.client.phase.Open? && id == z.client.nextId
  }

  predicate SentOk(z: Sys, m: Outgoing) {
    Fits(m) && m.id <= z.client.nextId && (m.Request? ==> m.id in z.asked && z.asked[m.id] == m)
    && (m.Request? || m.StreamChunk? || m.StreamEnd? || m.StreamClose?)
  }

  /** Requests not yet read by the server carry ids it has not seen. */
  predicate UpInv(z: Sys) {
    && z.consumed <= |z.up|
    && (forall i :: z.consumed <= i < |z.up| ==> SentOk(z, z.up[i]))
    && (forall i :: z.consumed <= i < |z.up| && z.up[i].Request? ==> z.up[i].id !in z.srv.calls)
    && (forall i, j :: z.consumed <= i < j < |z.up| && z.up[i].Request? && z.up[j].Request? ==> z.up[i].id != z.up[j].id)
  }

  /** Every call on the server was asked for by the client, with these arguments. */
  predicate AskedInv(z: Sys) {
    && (forall id :: id in z.asked ==> id <= z.client.nextId && z.asked[id].Request? && z.asked[id].id == id)
    && (forall id :: id in z.srv.calls ==>
          && id in z.asked
          && z.srv.calls[id].src < |z.srv.input|
          && z.srv.input[z.srv.calls[id].src] == Received(z.asked[id]))
  }

  function Heard(ms: seq<Outgoing>): seq<Message> {
    seq(|ms|, i requires 0 <= i < |ms| => Received(ms[i]))
  }

  /** Frames the client has not read. */
  function Unread(z: Sys): seq<Outgoing> {
    if z.read <= |z.srv.out.log| then z.srv.out.log[z.read..] else []
  }

  predicate ReadInv(z: Sys) {
    && AllFit(z.srv.out.log)
    && z.read <= |z.srv.out.log|
    && z.at == Offset(z.srv.out.log, z.read)
  }

  /** A call that is over for the client: it heard the whole word. */
  predicate Finished(z: Sys, id: uint64) {
    && id in z.srv.calls && id in z.client.heard
    && Quiet(z.srv.calls[id])
    && z.client.heard[id] == Heard(z.srv.calls[id].emitted)
    && z.srv.calls[id].emitted != []
    && Terminal(z.srv.calls[id].emitted[|z.srv.calls[id].emitted| - 1])
  }

  /** The frames of the current call that the client has read. */
  function ReadSoFar(z: Sys): seq<Outgoing> {
    if z.read <= |z.srv.out.log| then FramesOf(z.srv.out.log[..z.read], z.client.nextId) else []
  }

  predicate OnlyChunks(ms: seq<Outgoing>) {
    forall i :: 0 <= i < |ms| ==> ms[i].StreamChunk?
  }

  predicate AllFor(ms: seq<Outgoing>, id: uint64) {
    forall i :: 0 <= i < |ms| ==> ms[i].id == id
  }

  /** A single-read form only ever meets a call that sends no chunks. */
  predicate SingleReply(z: Sys, id: uint64) {
    && (id in z.srv.calls ==> !Emits(z.srv.calls[id].kind))
    && (id !in z.srv.calls ==>
          id in z.asked && z.asked[id].Request? && z.asked[id].func.Some? && !z.asked[id].stream
          && FindHandler(z.srv.registry, z.asked[id].func.value) != Some(Stream))
  }

  /** The call in flight: the client has heard a run of chunks, and every unread frame is this call's. */
  predicate InFlight(z: Sys)
    requires z.client.phase.Open?
  {
    var id := z.client.nextId;
    && id in z.asked && id in z.client.heard
    && AllFor(Unread(z), id)
    && z.client.heard[id] == Heard(ReadSoFar(z))
    && OnlyChunks(ReadSoFar(z))
    && (OneShot(z.client.phase.form) ==> ReadSoFar(z) == [] && SingleReply(z, id))
  }

  predicate Sync(z: Sys) {
    && ReadInv(z)
    && (z.client.phase.Idle? ==> Unread(z) == [])
    && (z.client.phase.Open? ==> InFlight(z))
    && (forall id :: id in z.srv.calls && !Current(z, id) ==> Quiet(z.srv.calls[id]))
    && (forall id :: id in z.asked && !Current(z, id) ==> Finished(z, id))
    && (forall id :: id in z.client.heard ==> id in z.asked)
  }

  /** A call that will hear nothing more: it has heard all of its frames, and no outcome among them. */
  predicate CutShort(z: Sys, id: uint64) {
    && id in z.client.heard
    && z.client.heard[id] == Heard(FramesOf(z.srv.out.log, id))
    && OnlyChunks(FramesOf(z.srv.out.log, id))
  }

  /** After a read has failed: the server is gone, nothing is left to read, and the other calls are as they were. */
  predicate Cut(z: Sys) {
    && z.srv.loop.Ended?
    && ReadInv(z) && z.read == |z.srv.out.log|
    && (forall id :: id in z.client.failed ==> id in z.asked && CutShort(z, id))
    && (z.client.phase.Open? ==> z.client.nextId in z.asked && z.client.nextId !in z.srv.calls && CutShort(z, z.client.nextId))
    && (forall id :: id in z.srv.calls && !Current(z, id) && id !in z.client.failed ==> Quiet(z.srv.calls[id]))
    && (forall id :: id in z.asked && !Current(z, id) && id !in z.client.failed ==> Finished(z, id))
    && (forall id :: id in z.client.heard ==> id in z.asked)
  }

  ghost predicate SysInv(z: Sys) {
    && Inv(z.srv)
    && UpInv(z)
    && AskedInv(z)
    && (!z.srv.out.broken && z.client.failed == {} ==> Sync(z))
    && (!z.srv.out.broken && z.client.failed != {} ==> Cut(z))
  }
}
