/**
 * The per-connection protocol engine of c/src/server.c as a state machine.
 *
 * One read loop routes frames; each accepted request runs on its own thread; the threads
 * share the table of input queues and the write lock. An action is one step of the read
 * loop or of one thread, so a sequence of actions is one interleaving of all of them.
 */
module Server {
  import opened Bytes
  import opened Framing
  import opened Mpack
  import opened Message
  import opened StreamInput
  import opened WriteLock

  /** The registered kind of a function; `Refused` marks a request that was answered with an error at once. */
  datatype Kind = Unary | Stream | ClientStream | Bidi | Refused

  datatype Handler = Handler(name: bytes, kind: Kind)

  predicate HasInput(k: Kind) {
    k.ClientStream? || k.Bidi?
  }

  predicate Emits(k: Kind) {
    k.Stream? || k.Bidi?
  }

  /** A queued item and the index of the received message it came from. */
  datatype Cell = Cell(item: Item, src: nat)

  /** What the cells of a queue carry. */
  function Items(q: seq<Cell>): seq<Item> {
    seq(|q|, i requires 0 <= i < |q| => q[i].item)
  }

  /** Where a call's thread stands. `Written` has put its whole frame on the wire and still holds the lock. */
  datatype Phase =
    | Running
    | Writing(msg: Outgoing)
    | Written(msg: Outgoing)
    | Cleanup
    | Done

  /** What a handler returned: its status and the value it left in the result. */
  datatype Returned = Returned(ok: bool, value: Value)

  /**
   * One request: its kind, the index of the message that carried it and its arguments, the
   * items its handler has received, the values it has sent as chunks and what it has returned,
   * the messages its thread has put on the wire, and the terminal message the thread decided
   * to send.
   */
  datatype Call = Call(
    kind: Kind,
    src: nat,
    args: seq<Value>,
    taken: seq<Cell>,
    produced: seq<Value>,
    returned: Option<Returned>,
    emitted: seq<Outgoing>,
    outcome: Option<Outgoing>,
    phase: Phase)

  /** The read loop: between finding a queue and pushing to it, other threads may run. */
  datatype Loop =
    | Reading
    | Found(id: uint64, cell: Cell)
    | Refusing(id: uint64)
    | Closing(todo: set<uint64>)
    | Ended

  /** The heap trees of the n-th decoded message. */
  datatype Tree = ArgsOf(n: nat) | ResultOf(n: nat)

  datatype Conn = Conn(
    registry: seq<Handler>,
    input: seq<Message>,
    loop: Loop,
    calls: map<uint64, Call>,
    queues: map<uint64, seq<Cell>>,
    out: Output,
    freed: seq<Tree>)

  /** Functions are exported under the four kinds; `Refused` is only what becomes of a request. */
  predicate Exported(registry: seq<Handler>) {
    forall i :: 0 <= i < |registry| ==> !registry[i].kind.Refused?
  }

  function Init(registry: seq<Handler>): Conn {
    Conn(registry, [], Reading, map[], map[], WriteLock.Idle, [])
  }

  // ---------------------------------------------------------------------------
  // Routing a decoded message
  // ---------------------------------------------------------------------------

  predicate IsStreamFrame(m: Message) {
    StrEq(m.msgType, STREAM_CHUNK) || StrEq(m.msgType, STREAM_CLOSE) || StrEq(m.msgType, STREAM_END)
  }

  function ItemFor(m: Message): Item {
    if StrEq(m.msgType, STREAM_CHUNK) then Chunk(m.result) else End
  }

  /** `find_handler`: the first registration under the name. */
  function FindHandler(registry: seq<Handler>, func: bytes): Option<Kind> {
    if registry == [] then None
    else if CStr(registry[0].name) == CStr(func) then Some(registry[0].kind)
    else FindHandler(registry[1..], func)
  }

  datatype Verdict = Accept(kind: Kind) | Refuse(errorType: bytes, text: bytes)

  /** The checks of `dispatch_request` (c/src/server.c:500-523). */
  function Judge(registry: seq<Handler>, m: Message): Verdict {
    if m.func.None? then Refuse(Ascii("TypeError"), Ascii("missing func field"))
    else
      match FindHandler(registry, m.func.value)
      case None => Refuse(Ascii("NotFoundError"), Ascii("function not exported"))
      case Some(kind) =>
        if kind.Bidi? && !m.stream then
          Refuse(Ascii("TypeError"), Ascii("function requires stream:true (bidi call)"))
        else if kind.ClientStream? && m.stream then
          Refuse(Ascii("TypeError"), Ascii("function is client-streaming, not bidi"))
        else Accept(kind)
  }

  /** The tail of `dispatch_request`: the queue is registered before the thread starts. */
  function Start(s: Conn, m: Message, n: nat, kind: Kind): Conn {
    s.(calls := s.calls[m.id := Call(kind, n, m.args, [], [], None, [], None, Running)],
       queues := if HasInput(kind) then s.queues[m.id := []] else s.queues,
       freed := s.freed + [ResultOf(n)])
  }

  /** `write_error` from the read loop: the loop itself takes the write lock and waits for it. */
  function Reject(s: Conn, m: Message, n: nat, errorType: bytes, text: bytes): Conn {
    var e := Error(m.id, Some(errorType), Some(text));
    s.(calls := s.calls[m.id := Call(Refused, n, [], [], [], None, [], Some(e), Writing(e))],
       loop := Refusing(m.id))
  }

  /** One round of the read loop on a message that decoded (c/src/server.c:603-627). */
  function Route(s: Conn, m: Message): Conn {
    var n := |s.input|;
    var s1 := s.(input := s.input + [m]);
    if IsStreamFrame(m) then
      if m.id in s.queues then s1.(loop := Found(m.id, Cell(ItemFor(m), n)))
      else s1.(freed := s.freed + [ArgsOf(n), ResultOf(n)])
    else if StrEq(m.msgType, REQUEST) then
      match Judge(s.registry, m)
      case Accept(kind) => Start(s1, m, n, kind)
      case Refuse(t, x) => Reject(s1, m, n, t, x)
    else s1.(freed := s.freed + [ArgsOf(n), ResultOf(n)])
  }

  // ---------------------------------------------------------------------------
  // Actions
  // ---------------------------------------------------------------------------

  datatype Action =
    | Receive(payload: bytes)
    | Push
    | Disconnect
    | CloseOne(id: uint64)
    | CloseDone
    | Resume
    | Recv(id: uint64)
    | Emit(id: uint64, value: Value)
    | Return(id: uint64, ok: bool, value: Value)
    | Lock(id: uint64)
    | Send(id: uint64, k: nat)
    | Unlock(id: uint64)
    | SendFails(id: uint64)
    | Remove(id: uint64)

  /** What the thread sends when its handler returns (c/src/server.c:407-418, 432-441, 457-468, 483-492). */
  function Outcome(id: uint64, kind: Kind, ok: bool, value: Value): Outgoing {
    if !ok then Error(id, Some(Ascii("Error")), Some(Ascii("handler returned an error")))
    else if Emits(kind) then StreamEnd(id)
    else Response(id, value)
  }

  predicate Terminal(m: Outgoing) {
    m.Response? || m.Error? || m.StreamEnd?
  }

  /** Where a write leaves its thread: back in the handler after a chunk, on the way out after a terminal. */
  function AfterWrite(m: Outgoing): Phase {
    if Terminal(m) then Cleanup else Running
  }

  predicate HoldsLock(s: Conn, id: uint64) {
    s.out.hold.Some? && s.out.hold.value.who == id
  }

  /**
   * When an action may happen. A request must carry an id not used before on the connection.
   * `Push` happens only while the queue it found is still registered. `Remove` of a call
   * with stream input waits for the table lock that the closing loop holds.
   */
  predicate Enabled(s: Conn, a: Action) {
    match a
    case Receive(p) =>
      s.loop.Reading? && |p| <= MAX_FRAME && (Decode(p).Some? && StrEq(Decode(p).value.msgType, REQUEST) ==> Decode(p).value.id !in s.calls)
    case Push => s.loop.Found? && s.loop.id in s.queues
    case Disconnect => s.loop.Reading?
    case CloseOne(id) => s.loop.Closing? && id in s.loop.todo && id in s.queues
    case CloseDone => s.loop.Closing? && s.loop.todo == {}
    case Resume => s.loop.Refusing? && s.loop.id in s.calls && s.calls[s.loop.id].phase.Done?
    case Recv(id) =>
      id in s.calls && s.calls[id].phase.Running? && HasInput(s.calls[id].kind) && id in s.queues && s.queues[id] != []
    case Emit(id, v) =>
      id in s.calls && s.calls[id].phase.Running? && Emits(s.calls[id].kind) && Fits(StreamChunk(id, v))
    case Return(id, _, _) => id in s.calls && s.calls[id].phase.Running?
    case Lock(id) => id in s.calls && s.calls[id].phase.Writing? && CanAcquire(s.out, s.calls[id].phase.msg)
    case Send(id, k) =>
      id in s.calls && s.calls[id].phase.Writing? && HoldsLock(s, id) && CanTransmit(s.out, k) && !s.loop.Ended?
    case Unlock(id) => id in s.calls && s.calls[id].phase.Written? && HoldsLock(s, id) && CanRelease(s.out)
    case SendFails(id) => id in s.calls && s.calls[id].phase.Writing? && HoldsLock(s, id)
    case Remove(id) => id in s.calls && s.calls[id].phase.Cleanup? && (HasInput(s.calls[id].kind) ==> !s.loop.Closing?)
  }

  function SetCall(s: Conn, id: uint64, c: Call): Conn {
    s.(calls := s.calls[id := c])
  }

  /** The queue's remaining chunks, as `stream_input_free` releases them. */
  function ChunkTrees(q: seq<Cell>): seq<Tree> {
    if q == [] then []
    else (if q[0].item.Chunk? then [ResultOf(q[0].src)] else []) + ChunkTrees(q[1..])
  }

  function FreedByPush(cell: Cell): seq<Tree> {
    if cell.item.Chunk? then [ArgsOf(cell.src)] else [ArgsOf(cell.src), ResultOf(cell.src)]
  }

  function DoPush(s: Conn): Conn
    requires Enabled(s, Push)
  {
    var id, cell := s.loop.id, s.loop.cell;
    s.(queues := s.queues[id := s.queues[id] + [cell]], loop := Reading, freed := s.freed + FreedByPush(cell))
  }

  function DoCloseOne(s: Conn, id: uint64): Conn
    requires Enabled(s, CloseOne(id))
  {
    s.(queues := s.queues[id := s.queues[id] + [Cell(End, |s.input|)]], loop := Closing(s.loop.todo - {id}))
  }

  function DoResume(s: Conn): Conn
    requires Enabled(s, Resume)
  {
    var n := s.calls[s.loop.id].src;
    s.(loop := Reading, freed := s.freed + [ArgsOf(n), ResultOf(n)])
  }

  function DoRecv(s: Conn, id: uint64): Conn
    requires Enabled(s, Recv(id))
  {
    var c, q := s.calls[id], s.queues[id];
    SetCall(s, id, c.(taken := c.taken + [q[0]])).(queues := s.queues[id := q[1..]])
  }

  function DoEmit(s: Conn, id: uint64, v: Value): Conn
    requires Enabled(s, Emit(id, v))
  {
    var c := s.calls[id];
    SetCall(s, id, c.(produced := c.produced + [v], phase := Writing(StreamChunk(id, v))))
  }

  function DoReturn(s: Conn, id: uint64, ok: bool, value: Value): Conn
    requires Enabled(s, Return(id, ok, value))
  {
    var c := s.calls[id];
    var m := Outcome(id, c.kind, ok, value);
    SetCall(s, id, c.(returned := Some(Returned(ok, value)), outcome := Some(m), phase := if Fits(m) then Writing(m) else Cleanup))
  }

  function DoSend(s: Conn, id: uint64, k: nat): Conn
    requires Enabled(s, Send(id, k))
  {
    var c := s.calls[id];
    var s1 := s.(out := Transmit(s.out, k));
    if Completes(s.out, k) then
      SetCall(s1, id, c.(emitted := c.emitted + [s.out.hold.value.msg], phase := Written(s.out.hold.value.msg)))
    else s1
  }

  function DoRemove(s: Conn, id: uint64): Conn
    requires Enabled(s, Remove(id))
  {
    var c := s.calls[id];
    var s1 := SetCall(s, id, c.(phase := Done));
    if HasInput(c.kind) then
      s1.(queues := s.queues - {id}, freed := s.freed + (if id in s.queues then ChunkTrees(s.queues[id]) else []))
    else if c.kind.Refused? then s1
    else s1.(freed := s.freed + [ArgsOf(c.src)])
  }

  function Next(s: Conn, a: Action): Conn
    requires Enabled(s, a)
  {
    match a
    case Receive(p) => (match Decode(p) case None => s case Some(m) => Route(s, m))
    case Push => DoPush(s)
    case Disconnect => s.(loop := Closing(s.queues.Keys))
    case CloseOne(id) => DoCloseOne(s, id)
    case CloseDone => s.(loop := Ended)
    case Resume => DoResume(s)
    case Recv(id) => DoRecv(s, id)
    case Emit(id, v) => DoEmit(s, id, v)
    case Return(id, ok, v) => DoReturn(s, id, ok, v)
    case Lock(id) => s.(out := Acquire(s.out, id, s.calls[id].phase.msg))
    case Send(id, k) => DoSend(s, id, k)
    case Unlock(id) =>
      SetCall(s, id, s.calls[id].(phase := AfterWrite(s.calls[id].phase.msg))).(out := Release(s.out))
    case SendFails(id) =>
      SetCall(s, id, s.calls[id].(phase := AfterWrite(s.calls[id].phase.msg))).(out := Break(s.out))
    case Remove(id) => DoRemove(s, id)
  }

  // ---------------------------------------------------------------------------
  // Runs
  // ---------------------------------------------------------------------------

  predicate Possible(s: Conn, actions: seq<Action>)
    decreases |actions|
  {
    actions == [] || (Enabled(s, actions[0]) && Possible(Next(s, actions[0]), actions[1..]))
  }

  function After(s: Conn, actions: seq<Action>): Conn
    requires Possible(s, actions)
    decreases |actions|
  {
    if actions == [] then s else After(Next(s, actions[0]), actions[1..])
  }
}
