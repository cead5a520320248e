/**
 * What becomes of each request, over every run: which registered function runs, with which
 * refusal it is answered otherwise, and that the frames on the wire are the values its handler
 * sent followed by the message its return calls for.
 */
module Requests {
  import opened Bytes
  import opened Framing
  import opened Mpack
  import opened Message
  import opened StreamInput
  import opened WriteLock
  import opened Server
  import opened ServerInv
  import opened ServerSteps
  import opened ServerTheorems

  // ---------------------------------------------------------------------------
  // Names in the registry
  // ---------------------------------------------------------------------------

  /** Entry `i` is the first with the name, as C strings go. */
  predicate FirstNamed(registry: seq<Handler>, func: bytes, i: int) {
    && 0 <= i < |registry| && CStr(registry[i].name) == CStr(func)
    && forall j :: 0 <= j < i ==> CStr(registry[j].name) != CStr(func)
  }

  predicate Unnamed(registry: seq<Handler>, func: bytes) {
    forall i :: 0 <= i < |registry| ==> CStr(registry[i].name) != CStr(func)
  }

  /** `find_handler` finds the first entry with the name, and fails exactly when there is none. */
  lemma {:induction false} FindsFirst(registry: seq<Handler>, func: bytes)
    ensures FindHandler(registry, func).None? <==> Unnamed(registry, func)
    ensures forall k :: FindHandler(registry, func) == Some(k) <==> exists i :: FirstNamed(registry, func, i) && registry[i].kind == k
  {
    hide CStr;
    if registry != [] {
      var rest := registry[1..];
      FindsFirst(rest, func);
      if CStr(registry[0].name) == CStr(func) {
        assert FirstNamed(registry, func, 0);
      } else {
        forall i | FirstNamed(rest, func, i) ensures FirstNamed(registry, func, i + 1) && registry[i + 1].kind == rest[i].kind {
        }
        forall i | FirstNamed(registry, func, i) ensures FirstNamed(rest, func, i - 1) && registry[i].kind == rest[i - 1].kind {
        }
        assert Unnamed(rest, func) <==> Unnamed(registry, func) by {
          forall i | 0 < i < |registry| ensures registry[i] == rest[i - 1] { }
        }
      }
    }
  }

  /** The loop of `find_handler`. */
  method Lookup(registry: seq<Handler>, func: bytes) returns (kind: Option<Kind>)
    ensures kind == FindHandler(registry, func)
    ensures kind.None? <==> Unnamed(registry, func)
    ensures kind.Some? ==> exists i :: FirstNamed(registry, func, i) && kind.value == registry[i].kind
  {
    hide CStr, FindHandler;
    FindsFirst(registry, func);
    var i := 0;
    while i < |registry|
      invariant 0 <= i <= |registry| && forall j :: 0 <= j < i ==> CStr(registry[j].name) != CStr(func)
    {
      if CStr(registry[i].name) == CStr(func) {
        assert FirstNamed(registry, func, i);
        return Some(registry[i].kind);
      }
      i := i + 1;
    }
    return None;
  }

  // ---------------------------------------------------------------------------
  // What each call must be
  // ---------------------------------------------------------------------------

  predicate RefusedWith(id: uint64, c: Call, errorType: string, text: string) {
    c.kind.Refused? && c.outcome == Some(Error(id, Some(Ascii(errorType)), Some(Ascii(text))))
  }

  /** The call that a request message must lead to. */
  ghost predicate Dispatched(registry: seq<Handler>, m: Message, c: Call) {
    match m.func
    case None => RefusedWith(m.id, c, "TypeError", "missing func field")
    case Some(func) =>
      && (Unnamed(registry, func) ==> RefusedWith(m.id, c, "NotFoundError", "function not exported"))
      && (forall i :: FirstNamed(registry, func, i) ==>
            match registry[i].kind
            case Bidi => if m.stream then c.kind.Bidi? else RefusedWith(m.id, c, "TypeError", "function requires stream:true (bidi call)")
            case ClientStream => if m.stream then RefusedWith(m.id, c, "TypeError", "function is client-streaming, not bidi") else c.kind.ClientStream?
            case kind => c.kind == kind)
  }

  /** The message that a handler's return calls for. */
  predicate Concludes(id: uint64, kind: Kind, r: Returned, m: Outgoing) {
    if !r.ok then m == Error(id, Some(Ascii("Error")), Some(Ascii("handler returned an error")))
    else match kind
         case Unary => m == Response(id, r.value)
         case ClientStream => m == Response(id, r.value)
         case Stream => m == StreamEnd(id)
         case Bidi => m == StreamEnd(id)
         case Refused => false
  }

  /** The thread decides on a terminal message exactly when its handler returns, and on the right one. */
  predicate Decided(id: uint64, c: Call) {
    && (c.kind.Refused? ==> c.returned.None? && c.produced == [])
    && (!c.kind.Refused? ==> (c.outcome.Some? <==> c.returned.Some?))
    && (c.returned.Some? ==> c.outcome.Some? && Concludes(id, c.kind, c.returned.value, c.outcome.value))
  }

  function Said(id: uint64, vs: seq<Value>): seq<Outgoing> {
    seq(|vs|, i requires 0 <= i < |vs| => StreamChunk(id, vs[i]))
  }

  /** As long as no send has failed, the wire has what the handler sent, up to the frame being written. */
  predicate Voiced(id: uint64, c: Call) {
    var said := Said(id, c.produced);
    match c.phase
    case Running => c.emitted == said
    case Writing(m) => c.emitted + (if m.StreamChunk? then [m] else []) == said
    case Written(m) => c.emitted == said + (if m.StreamChunk? then [] else [m])
    case _ => c.outcome.Some? && c.emitted == said + (if Fits(c.outcome.value) then [c.outcome.value] else [])
  }

  ghost predicate Settled(s: Conn, id: uint64)
    requires id in s.calls
  {
    var c := s.calls[id];
    && c.src < |s.input| && s.input[c.src].id == id
    && Dispatched(s.registry, s.input[c.src], c)
    && Decided(id, c)
    && (!s.out.broken ==> Voiced(id, c))
  }

  /** Every request received has its call. */
  predicate Taken(s: Conn) {
    forall n :: 0 <= n < |s.input| && StrEq(s.input[n].msgType, REQUEST) ==>
      s.input[n].id in s.calls && s.calls[s.input[n].id].src == n
  }

  ghost predicate RequestInv(registry: seq<Handler>, s: Conn) {
    && s.registry == registry
    && Taken(s)
    && forall id :: id in s.calls ==> Settled(s, id)
  }

  // ---------------------------------------------------------------------------
  // Receiving
  // ---------------------------------------------------------------------------

  lemma {:induction false} JudgedRight(registry: seq<Handler>, m: Message, c: Call)
    requires Exported(registry)
    requires match Judge(registry, m)
             case Accept(kind) => c.kind == kind
             case Refuse(t, x) => c.kind.Refused? && c.outcome == Some(Error(m.id, Some(t), Some(x)))
    ensures Dispatched(registry, m, c)
  {
    hide FindHandler, Ascii, CStr;
    if m.func.Some? {
      var func := m.func.value;
      FindsFirst(registry, func);
      forall i | FirstNamed(registry, func, i) ensures FindHandler(registry, func) == Some(registry[i].kind) {
      }
    }
  }

  /** A call that was there before a message is received is as settled after it. */
  lemma {:induction false} OlderCall(s: Conn, s': Conn, m: Message, id: uint64)
    requires id in s.calls && Settled(s, id) && id in s'.calls && s'.calls[id] == s.calls[id]
    requires s'.input == s.input + [m] && s'.registry == s.registry && s'.out == s.out
    ensures Settled(s', id)
  {
    hide Dispatched, Decided, Voiced;
  }

  lemma {:induction false} NewCall(s: Conn, m: Message)
    requires Exported(s.registry) && !IsStreamFrame(m) && StrEq(m.msgType, REQUEST)
    ensures var s' := Route(s, m);
            && m.id in s'.calls && s'.calls[m.id].src == |s.input|
            && s'.calls == s.calls[m.id := s'.calls[m.id]] && s'.input == s.input + [m] && s'.registry == s.registry && s'.out == s.out
            && Settled(s', m.id)
  {
    hide Judge, Ascii, StrEq, IsStreamFrame, Dispatched, Fits;
    JudgeOk(s.registry, m);
    JudgedRight(s.registry, m, Route(s, m).calls[m.id]);
  }

  lemma {:induction false} NoNewCall(s: Conn, m: Message)
    requires IsStreamFrame(m) || !StrEq(m.msgType, REQUEST)
    ensures var s' := Route(s, m);
            s'.calls == s.calls && s'.input == s.input + [m] && s'.registry == s.registry && s'.out == s.out
  {
    hide Judge, StrEq, IsStreamFrame, ItemFor, Start, Reject;
  }

  lemma {:induction false} RouteSettles(registry: seq<Handler>, s: Conn, m: Message)
    requires Exported(registry) && RequestInv(registry, s) && (StrEq(m.msgType, REQUEST) ==> m.id !in s.calls)
    ensures RequestInv(registry, Route(s, m))
  {
    hide Route, StrEq, IsStreamFrame, Settled;
    var s' := Route(s, m);
    if StrEq(m.msgType, REQUEST) {
      RequestIsNoStream(m);
      NewCall(s, m);
    } else {
      NoNewCall(s, m);
    }
    forall id | id in s'.calls ensures Settled(s', id) {
      if id in s.calls { OlderCall(s, s', m, id); }
    }
  }

  /** The type of a message, as a C string; a message without one has none. */
  predicate HasType(m: Message, name: string) {
    m.msgType.Some? && CStr(m.msgType.value) == Ascii(name)
  }

  predicate InputType(m: Message) {
    HasType(m, "stream_chunk") || HasType(m, "stream_close") || HasType(m, "stream_end")
  }

  /** What the read loop has no use for changes nothing but the record of what was received and freed. */
  lemma {:induction false} IgnoredMessages(s: Conn, m: Message)
    requires !HasType(m, "request") && (InputType(m) ==> m.id !in s.queues)
    ensures Route(s, m) == s.(input := s.input + [m], freed := s.freed + [ArgsOf(|s.input|), ResultOf(|s.input|)])
  {
    TypesSpelled();
    StreamTypesSpelled();
    hide Ascii, CStr;
  }

  /** A stream message for a registered call is found a queue, and is a chunk exactly by its type. */
  lemma {:induction false} InputMessages(s: Conn, m: Message)
    requires InputType(m) && m.id in s.queues
    ensures Route(s, m).loop == Found(m.id, Cell(if HasType(m, "stream_chunk") then Chunk(m.result) else End, |s.input|))
    ensures Route(s, m) == s.(input := s.input + [m], loop := Route(s, m).loop)
  {
    TypesSpelled();
    StreamTypesSpelled();
    hide Ascii, CStr;
  }

  // ---------------------------------------------------------------------------
  // The steps of threads
  // ---------------------------------------------------------------------------

  /** A step that leaves what a call says, returned and decided alone. */
  lemma {:induction false} Untouched(s: Conn, s': Conn, id: uint64)
    requires id in s.calls && Settled(s, id) && id in s'.calls
    requires s'.input == s.input && s'.registry == s.registry && (s.out.broken ==> s'.out.broken)
    requires var c, c' := s.calls[id], s'.calls[id];
             c' == c.(taken := c'.taken, phase := c'.phase)
             && (c'.phase == c.phase || (c.phase.Cleanup? && c'.phase.Done?))
    ensures Settled(s', id)
  {
    hide Fits, Unnamed, FirstNamed, Ascii, Concludes;
  }

  lemma {:induction false} EmitSettles(s: Conn, id: uint64, v: Value)
    requires Enabled(s, Emit(id, v)) && Settled(s, id) && Shape(id, s.calls[id], s.out.broken)
    ensures Settled(DoEmit(s, id, v), id)
  {
    hide Fits, Unnamed, FirstNamed, Ascii, Concludes;
    var c := s.calls[id];
    assert Said(id, c.produced + [v]) == Said(id, c.produced) + [StreamChunk(id, v)];
  }

  lemma {:induction false} ReturnSettles(s: Conn, id: uint64, ok: bool, v: Value)
    requires Enabled(s, Return(id, ok, v)) && Settled(s, id) && Shape(id, s.calls[id], s.out.broken)
    ensures Settled(DoReturn(s, id, ok, v), id)
  {
    hide Fits, Unnamed, FirstNamed, Ascii;
    var c := s.calls[id];
    assert Said(id, c.produced) + [] == Said(id, c.produced);
    DispatchedRunning(s.registry, s.input[c.src], c, DoReturn(s, id, ok, v).calls[id]);
  }

  /** A call that is not refused is dispatched by its kind alone. */
  lemma {:induction false} DispatchedRunning(registry: seq<Handler>, m: Message, c: Call, c': Call)
    requires Dispatched(registry, m, c) && !c.kind.Refused? && c'.kind == c.kind
    ensures Dispatched(registry, m, c')
  {
    hide Unnamed, FirstNamed, Ascii;
  }

  lemma {:induction false} SendSettles(s: Conn, id: uint64, k: nat)
    requires Enabled(s, Send(id, k)) && LockInv(s) && Settled(s, id)
    ensures Settled(DoSend(s, id, k), id)
  {
    hide Encode, Frame, Unnamed, FirstNamed, Ascii, Concludes;
  }

  /** The lock is given back, or the send has failed. */
  lemma {:induction false} WriteEnds(s: Conn, s': Conn, id: uint64)
    requires id in s.calls && Settled(s, id) && Shape(id, s.calls[id], s.out.broken)
    requires s'.input == s.input && s'.registry == s.registry
    requires id in s'.calls && (s.calls[id].phase.Written? || s.calls[id].phase.Writing?)
    requires s'.calls[id] == s.calls[id].(phase := AfterWrite(s.calls[id].phase.msg))
    requires s.calls[id].phase.Writing? ==> s'.out.broken
    requires s.out.broken ==> s'.out.broken
    ensures Settled(s', id)
  {
    hide Fits, Unnamed, FirstNamed, Ascii, Concludes, Chunky, MayEnd;
    assert Said(id, s.calls[id].produced) + [] == Said(id, s.calls[id].produced);
  }

  /** The call whose thread takes the step. */
  lemma {:induction false} OwnStep(s: Conn, a: Action)
    requires Inv(s) && Enabled(s, a) && (a.Emit? || a.Return? || a.Send? || a.Unlock? || a.SendFails?) && Settled(s, a.id)
    ensures a.id in Next(s, a).calls && Settled(Next(s, a), a.id)
  {
    hide Settled, Decode, OutputInv, LogInv, QueueInv, FlowInv, LoopInv, LockInv, Shape, Fits, CanTransmit, CanAcquire, CanRelease, Outcome;
    match a
    case Emit(id, v) => EmitSettles(s, id, v);
    case Return(id, ok, v) => ReturnSettles(s, id, ok, v);
    case Send(id, k) => SendSettles(s, id, k);
    case Unlock(id) => WriteEnds(s, Next(s, a), id);
    case SendFails(id) => WriteEnds(s, Next(s, a), id);
  }

  predicate Owner(a: Action, id: uint64) {
    (a.Emit? || a.Return? || a.Send? || a.Unlock? || a.SendFails?) && a.id == id
  }

  /** Any other call. */
  lemma {:induction false} OtherStep(s: Conn, a: Action, id: uint64)
    requires Enabled(s, a) && !a.Receive? && id in s.calls && !Owner(a, id)
    ensures var s' := Next(s, a);
            && s'.input == s.input && s'.registry == s.registry && s'.calls.Keys == s.calls.Keys
            && (s.out.broken ==> s'.out.broken)
            && var c, c' := s.calls[id], s'.calls[id];
               c' == c.(taken := c'.taken, phase := c'.phase)
               && (c'.phase == c.phase || (c.phase.Cleanup? && c'.phase.Done?))
  {
    hide Decode, Fits, CanTransmit, CanAcquire, CanRelease, Outcome, ChunkTrees, FreedByPush, FrameOf;
  }

  lemma {:induction false} ThreadSettles(registry: seq<Handler>, s: Conn, a: Action)
    requires Inv(s) && RequestInv(registry, s) && Enabled(s, a) && !a.Receive?
    ensures RequestInv(registry, Next(s, a))
  {
    hide Inv, Settled, Enabled, Next, StrEq;
    var s' := Next(s, a);
    forall id | id in s.calls ensures id in s'.calls && Settled(s', id) && s'.calls[id].src == s.calls[id].src {
      if Owner(a, id) {
        OwnStep(s, a);
        SameSource(s, a, id);
      } else {
        OtherStep(s, a, id);
        Untouched(s, s', id);
      }
    }
    NothingReceived(s, a);
  }

  lemma {:induction false} SameSource(s: Conn, a: Action, id: uint64)
    requires Enabled(s, a) && !a.Receive? && id in s.calls
    ensures id in Next(s, a).calls && Next(s, a).calls[id].src == s.calls[id].src
  {
    hide Decode, Fits, CanTransmit, CanAcquire, CanRelease, Outcome, ChunkTrees, FreedByPush, FrameOf;
  }

  lemma {:induction false} NothingReceived(s: Conn, a: Action)
    requires Enabled(s, a) && !a.Receive?
    ensures Next(s, a).input == s.input && Next(s, a).registry == s.registry && Next(s, a).calls.Keys == s.calls.Keys
  {
    hide Decode, Fits, CanTransmit, CanAcquire, CanRelease, Outcome, ChunkTrees, FreedByPush, FrameOf;
  }

  lemma {:induction false} StepSettles(registry: seq<Handler>, s: Conn, a: Action)
    requires Exported(registry) && Inv(s) && RequestInv(registry, s) && Enabled(s, a)
    ensures RequestInv(registry, Next(s, a))
  {
    hide Inv, RequestInv, Route, Decode, StrEq, Fits, CanTransmit, CanAcquire, CanRelease;
    if a.Receive? {
      if Decode(a.payload).Some? { RouteSettles(registry, s, Decode(a.payload).value); }
    } else {
      ThreadSettles(registry, s, a);
    }
  }

  lemma {:induction false} RunSettles(registry: seq<Handler>, s: Conn, actions: seq<Action>)
    requires Exported(registry) && Inv(s) && RequestInv(registry, s) && Possible(s, actions)
    ensures RequestInv(registry, Server.After(s, actions))
    decreases |actions|
  {
    hide Inv, RequestInv, Enabled, Next;
    if actions != [] {
      StepSettles(registry, s, actions[0]);
      StepKeeps(s, actions[0]);
      RunSettles(registry, Next(s, actions[0]), actions[1..]);
    }
  }

  lemma {:induction false} ReachableRequests(registry: seq<Handler>, s: Conn)
    requires Reachable(registry, s)
    ensures RequestInv(registry, s)
  {
    hide Inv, RequestInv, Possible;
    var actions :| Possible(Init(registry), actions) && Server.After(Init(registry), actions) == s;
    InitInv(registry);
    FreshRequests(registry);
    RunSettles(registry, Init(registry), actions);
  }

  lemma {:induction false} FreshRequests(registry: seq<Handler>)
    ensures RequestInv(registry, Init(registry))
  {
  }

  // ---------------------------------------------------------------------------
  // Results
  // ---------------------------------------------------------------------------

  /**
   * On every run, every request received has a call. It runs the first function registered
   * under the name it gives, or is refused with the error its fault calls for.
   */
  lemma {:induction false} RequestsAreDispatched(registry: seq<Handler>, s: Conn, n: nat)
    requires Reachable(registry, s) && n < |s.input| && StrEq(s.input[n].msgType, REQUEST)
    ensures s.input[n].id in s.calls && s.calls[s.input[n].id].src == n
    ensures Dispatched(registry, s.input[n], s.calls[s.input[n].id])
  {
    hide Reachable, StrEq, Dispatched, Decided, Voiced;
    ReachableRequests(registry, s);
    assert Settled(s, s.input[n].id);
  }

  /**
   * On every run, a call decides on its last message when its handler returns, and on the one
   * the return calls for. Once it is over and no send has failed, its frames are the values its
   * handler sent, in order, and then that message if it fits a frame.
   */
  lemma {:induction false} WireSaysWhatHandlersDid(registry: seq<Handler>, s: Conn, id: uint64)
    requires Reachable(registry, s) && id in s.calls
    ensures Decided(id, s.calls[id])
    ensures !s.out.broken && s.calls[id].phase.Running? ==> FramesOf(s.out.log, id) == Said(id, s.calls[id].produced)
    ensures !s.out.broken && Over(s.calls[id]) ==>
      var c := s.calls[id];
      c.outcome.Some? && FramesOf(s.out.log, id) == Said(id, c.produced) + (if Fits(c.outcome.value) then [c.outcome.value] else [])
  {
    hide Reachable, Dispatched, Decided, Fits, FramesOf, OutputInv, LockInv, ShapeInv, QueueInv, FlowInv, LoopInv;
    ServerTheorems.ReachableInv(registry, s);
    ReachableRequests(registry, s);
    assert Settled(s, id);
  }
}
