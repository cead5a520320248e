/**
 * Runs that exist: from every reachable state in which the connection is at rest, a call of
 * any of the four forms, on a function of the matching kind, can be carried to its end with
 * any arguments, any chunks in either direction and any result, as long as each message fits a
 * frame, and it leaves the connection at rest again.
 */
module Completion {
  import opened Bytes
  import opened Framing
  import opened Mpack
  import opened Message
  import opened MessageRoundTrip
  import opened StreamInput
  import opened WriteLock
  import opened Server
  import opened ServerInv
  import opened System
  import opened SystemSteps
  import opened SystemTheorems
  import opened Uplink
  import opened Requests
  import opened Begun
  import PushRace

  /** No call is open, everything sent has been read, nobody holds the write lock. */
  predicate AtRest(z: Sys) {
    && z.client.phase.Idle? && z.consumed == |z.up|
    && z.srv.loop.Reading? && z.srv.out.hold.None? && !z.srv.out.broken
  }

  /** The form meant for the kind. */
  predicate Matches(f: Form, kind: Kind) {
    match f
    case Plain => kind.Unary?
    case Pull => kind.Stream?
    case Export => kind.ClientStream?
    case Duplex => kind.Bidi?
  }

  /** The open call's handler is running, and everything else is at rest. */
  predicate Busy(z: Sys, phase: ClientPhase, kind: Kind) {
    && phase.Open? && Matches(phase.form, kind) && z.client.phase == phase && z.consumed == |z.up|
    && z.srv.loop.Reading? && z.srv.out.hold.None? && !z.srv.out.broken
    && z.client.nextId in z.srv.calls
    && z.srv.calls[z.client.nextId].kind == kind && z.srv.calls[z.client.nextId].phase.Running?
    && (HasInput(kind) ==> z.client.nextId in z.srv.queues && z.srv.queues[z.client.nextId] == [])
  }

  lemma {:induction false} Step(registry: seq<Handler>, z: Sys, mv: Move)
    requires Reachable(registry, z) && Allowed(Matched, z, mv)
    ensures Reachable(registry, Do(z, mv))
  {
    hide Arrives, Allowed, Do;
    Advance(Matched, registry, z, mv);
  }

  // ---------------------------------------------------------------------------
  // Opening
  // ---------------------------------------------------------------------------

  lemma {:induction false} SameRegistry(registry: seq<Handler>, z: Sys)
    requires Reachable(registry, z)
    ensures z.srv.registry == registry
  {
    hide Arrives, PushRace.Framed, PushRace.Accepted;
    ServerOfSystem(Matched, registry, z);
    PushRace.ReachableOrigin(registry, z.srv);
  }

  lemma {:induction false} Accepts(registry: seq<Handler>, id: uint64, f: Form, func: bytes, args: seq<Value>, kind: Kind)
    requires FindHandler(registry, func) == Some(kind) && Matches(f, kind)
    ensures Judge(registry, Received(RequestOf(id, f, func, args))) == Accept(kind)
    ensures Received(RequestOf(id, f, func, args)).args == RequestOf(id, f, func, args).args
  {
    hide FindHandler, CStr, Ascii;
    FindByCStr(registry, func);
  }

  lemma {:induction false} NewId(registry: seq<Handler>, z: Sys)
    requires Reachable(registry, z)
    ensures forall id :: z.client.nextId < id < TWO_64 ==> id !in z.srv.calls
  {
    hide Reachable, Inv, UpInv, Sync, Cut, Received;
    ReachableInv(registry, z);
  }

  lemma {:induction false} Opens(registry: seq<Handler>, z: Sys, f: Form, func: bytes, args: seq<Value>, kind: Kind) returns (z': Sys)
    requires Reachable(registry, z) && AtRest(z) && z.client.nextId + 1 < TWO_64
    requires FindHandler(registry, func) == Some(kind) && Matches(f, kind)
    requires Fits(RequestOf(z.client.nextId + 1, f, func, args))
    ensures Reachable(registry, z') && Busy(z', Open(f, false), kind) && z'.client.nextId == z.client.nextId + 1
    ensures z'.srv.out == z.srv.out && z'.srv.calls[z'.client.nextId].emitted == [] && z'.srv.calls[z'.client.nextId].taken == []
    ensures z'.srv.calls[z'.client.nextId].produced == [] && z'.srv.calls[z'.client.nextId].args == RequestOf(z'.client.nextId, f, func, args).args
    ensures z'.begun == z.begun + [Ask(f, func, args)] && z'.up == z.up + [RequestOf(z'.client.nextId, f, func, args)]
  {
    hide Reachable, Encode, Decode, Received, StrEq, FindHandler, Judge;
    var id := z.client.nextId + 1;
    var begin, m := Begin(f, func, args), RequestOf(id, f, func, args);
    SameRegistry(registry, z);
    NewId(registry, z);
    Step(registry, z, begin);
    var z1 := Do(z, begin);
    Delivered(m);
    TypeTells(m);
    Accepts(registry, id, f, func, args, kind);
    var mv := Serve(Receive(Encode(m)));
    assert Can(z1, mv);
    Step(registry, z1, mv);
    z' := Do(z1, mv);
  }

  // ---------------------------------------------------------------------------
  // Chunks up
  // ---------------------------------------------------------------------------

  /** One message up: the server reads it, queues it, and the handler takes it. */
  lemma {:induction false} TakesOne(registry: seq<Handler>, z: Sys, phase: ClientPhase, kind: Kind, m: Outgoing) returns (z': Sys)
    requires Reachable(registry, z) && Streamy(m) && m.id == z.client.nextId && Fits(m)
    requires |z.up| > 0 && z.up[|z.up| - 1] == m && z.consumed == |z.up| - 1 && Busy(z.(consumed := |z.up|), phase, kind) && HasInput(kind)
    ensures Reachable(registry, z') && Busy(z', phase, kind) && z'.client == z.client && z'.srv.out == z.srv.out
    ensures z'.begun == z.begun && z'.up == z.up
    ensures var id := z.client.nextId;
            && SameButTaken(z'.srv.calls[id], z.srv.calls[id])
            && Items(z'.srv.calls[id].taken) == Items(z.srv.calls[id].taken) + [ItemSent(m)]
  {
    hide Reachable, Encode, Decode, Received, StrEq, IsStreamFrame, ItemFor;
    var id := z.client.nextId;
    Delivered(m);
    SentItem(m);
    TypeTells(m);
    var receive := Serve(Receive(Encode(m)));
    assert Can(z, receive);
    Step(registry, z, receive);
    var z1 := Do(z, receive);
    Step(registry, z1, Serve(Push));
    var z2 := Do(z1, Serve(Push));
    Step(registry, z2, Serve(Recv(id)));
    z' := Do(z2, Serve(Recv(id)));
  }

  predicate SameButTaken(c: Call, c': Call) {
    c == c'.(taken := c.taken)
  }

  function ChunkItems(vs: seq<Value>): seq<Item> {
    seq(|vs|, i requires 0 <= i < |vs| => Chunk(vs[i]))
  }

  lemma {:induction false} SendsChunks(registry: seq<Handler>, z: Sys, phase: ClientPhase, kind: Kind, vs: seq<Value>) returns (z': Sys)
    requires Reachable(registry, z) && Busy(z, phase, kind) && HasInput(kind) && !phase.closed
    requires forall i :: 0 <= i < |vs| ==> Fits(StreamChunk(z.client.nextId, vs[i]))
    ensures Reachable(registry, z') && Busy(z', phase, kind) && z'.client == z.client && z'.srv.out == z.srv.out
    ensures z'.begun == z.begun && z'.up == z.up + Said(z.client.nextId, vs)
    ensures var id := z.client.nextId;
            && SameButTaken(z'.srv.calls[id], z.srv.calls[id])
            && Items(z'.srv.calls[id].taken) == Items(z.srv.calls[id].taken) + ChunkItems(vs)
    decreases |vs|
  {
    hide Reachable, Fits, Enabled, Next, Incoming;
    if vs == [] {
      z' := z;
    } else {
      var mv := SendChunk(vs[0]);
      Step(registry, z, mv);
      var z1 := Do(z, mv);
      var z2 := TakesOne(registry, z1, phase, kind, StreamChunk(z.client.nextId, vs[0]));
      z' := SendsChunks(registry, z2, phase, kind, vs[1..]);
      assert ChunkItems(vs) == [Chunk(vs[0])] + ChunkItems(vs[1..]);
      assert Said(z.client.nextId, vs) == [StreamChunk(z.client.nextId, vs[0])] + Said(z.client.nextId, vs[1..]);
    }
  }

  /** The client closes its half: a client stream with `stream_close`, a bidi stream with `stream_end`. */
  lemma {:induction false} SendsClose(registry: seq<Handler>, z: Sys, f: Form, kind: Kind) returns (z': Sys)
    requires Reachable(registry, z) && Busy(z, Open(f, false), kind) && (f.Export? || f.Duplex?)
    ensures Reachable(registry, z') && Busy(z', Open(f, true), kind) && z'.client == z.client.(phase := Open(f, true))
    ensures z'.srv.out == z.srv.out && z'.begun == z.begun
    ensures z'.up == z.up + [if f.Export? then StreamClose(z.client.nextId) else StreamEnd(z.client.nextId)]
    ensures var id := z.client.nextId;
            && SameButTaken(z'.srv.calls[id], z.srv.calls[id])
            && Items(z'.srv.calls[id].taken) == Items(z.srv.calls[id].taken) + [End]
  {
    hide Reachable, Fits, Enabled, Next, Incoming;
    Step(registry, z, SendClose);
    var z1 := Do(z, SendClose);
    ClosesFit(z.client.nextId);
    z' := TakesOne(registry, z1, Open(f, true), kind, z1.up[|z.up|]);
  }

  // ---------------------------------------------------------------------------
  // Frames down
  // ---------------------------------------------------------------------------

  /** The thread that holds the lock sends its frame, whole, and releases the lock. */
  lemma {:induction false} SendsFrame(registry: seq<Handler>, z: Sys, id: uint64, m: Outgoing) returns (z': Sys)
    requires Reachable(registry, z) && !z.srv.loop.Ended? && Fits(m) && z.srv.out.hold == Some(Hold(id, m, 0))
    requires id in z.srv.calls && z.srv.calls[id].phase == Writing(m)
    ensures Reachable(registry, z') && z' == z.(srv := z'.srv)
    ensures z'.srv.out.hold.None? && z'.srv.out.broken == z.srv.out.broken && z'.srv.out.log == z.srv.out.log + [m]
    ensures z'.srv.loop == z.srv.loop && z'.srv.queues == z.srv.queues
    ensures var c := z.srv.calls[id]; z'.srv.calls == z.srv.calls[id := c.(emitted := c.emitted + [m], phase := AfterWrite(m))]
  {
    hide Reachable, Fits, Encode, Decode, Frame;
    var k := |FrameOf(m)|;
    FrameNotEmpty(m);
    assert CanTransmit(z.srv.out, k);
    Step(registry, z, Serve(Send(id, k)));
    var z1 := Do(z, Serve(Send(id, k)));
    Step(registry, z1, Serve(Unlock(id)));
    z' := Do(z1, Serve(Unlock(id)));
  }

  lemma {:induction false} EmitsChunk(registry: seq<Handler>, z: Sys, phase: ClientPhase, kind: Kind, v: Value) returns (z': Sys)
    requires Reachable(registry, z) && Busy(z, phase, kind) && Emits(kind) && Fits(StreamChunk(z.client.nextId, v))
    ensures Reachable(registry, z') && Busy(z', phase, kind) && z'.client == z.client && z'.read == z.read
    ensures z'.srv.out.log == z.srv.out.log + [StreamChunk(z.client.nextId, v)] && z'.begun == z.begun && z'.up == z.up
    ensures var id := z.client.nextId;
            && z'.srv.calls[id].args == z.srv.calls[id].args && z'.srv.calls[id].taken == z.srv.calls[id].taken
            && z'.srv.calls[id].produced == z.srv.calls[id].produced + [v]
            && z'.srv.calls[id].emitted == z.srv.calls[id].emitted + [StreamChunk(id, v)]
  {
    hide Reachable, Fits, Encode, Decode, Frame;
    var id, m := z.client.nextId, StreamChunk(z.client.nextId, v);
    Step(registry, z, Serve(Emit(id, v)));
    var z1 := Do(z, Serve(Emit(id, v)));
    Step(registry, z1, Serve(Lock(id)));
    var z2 := Do(z1, Serve(Lock(id)));
    z' := SendsFrame(registry, z2, id, m);
  }

  lemma {:induction false} EmitsChunks(registry: seq<Handler>, z: Sys, phase: ClientPhase, kind: Kind, vs: seq<Value>) returns (z': Sys)
    requires Reachable(registry, z) && Busy(z, phase, kind) && (vs != [] ==> Emits(kind))
    requires forall i :: 0 <= i < |vs| ==> Fits(StreamChunk(z.client.nextId, vs[i]))
    ensures Reachable(registry, z') && Busy(z', phase, kind) && z'.client == z.client && z'.read == z.read
    ensures z'.srv.out.log == z.srv.out.log + Said(z.client.nextId, vs) && z'.begun == z.begun && z'.up == z.up
    ensures var id := z.client.nextId;
            && z'.srv.calls[id].args == z.srv.calls[id].args && z'.srv.calls[id].taken == z.srv.calls[id].taken
            && z'.srv.calls[id].produced == z.srv.calls[id].produced + vs
    decreases |vs|
  {
    hide Reachable, Fits, Busy;
    if vs == [] {
      z' := z;
    } else {
      var z1 := EmitsChunk(registry, z, phase, kind, vs[0]);
      z' := EmitsChunks(registry, z1, phase, kind, vs[1..]);
      assert Said(z.client.nextId, vs) == [StreamChunk(z.client.nextId, vs[0])] + Said(z.client.nextId, vs[1..]);
    }
  }

  // ---------------------------------------------------------------------------
  // The end of the call
  // ---------------------------------------------------------------------------

  /** The handler returns and its thread takes the lock. */
  lemma {:induction false} TakesLock(registry: seq<Handler>, z: Sys, id: uint64, ok: bool, v: Value) returns (z': Sys)
    requires Reachable(registry, z) && z.srv.out.hold.None? && id in z.srv.calls && z.srv.calls[id].phase.Running?
    requires Fits(Outcome(id, z.srv.calls[id].kind, ok, v))
    ensures Reachable(registry, z') && z' == z.(srv := z'.srv)
    ensures var c, m := z.srv.calls[id], Outcome(id, z.srv.calls[id].kind, ok, v);
            z'.srv == z.srv.(
              calls := z.srv.calls[id := c.(returned := Some(Returned(ok, v)), outcome := Some(m), phase := Writing(m))],
              out := z.srv.out.(hold := Some(Hold(id, m, 0))))
  {
    hide Reachable, Fits, Decode, Outcome, CanTransmit, CanRelease, Incoming;
    Step(registry, z, Serve(Return(id, ok, v)));
    var z1 := Do(z, Serve(Return(id, ok, v)));
    Step(registry, z1, Serve(Lock(id)));
    z' := Do(z1, Serve(Lock(id)));
  }

  /** A thread that has sent its last message cleans up. */
  lemma {:induction false} CleansUp(registry: seq<Handler>, z: Sys, id: uint64) returns (z': Sys)
    requires Reachable(registry, z) && id in z.srv.calls && z.srv.calls[id].phase.Cleanup? && !z.srv.loop.Closing?
    ensures Reachable(registry, z') && z' == z.(srv := z'.srv)
    ensures z'.srv.loop == z.srv.loop && z'.srv.out == z.srv.out && z'.srv.calls == z.srv.calls[id := z.srv.calls[id].(phase := Done)]
    ensures HasInput(z.srv.calls[id].kind) ==> id !in z'.srv.queues
  {
    hide Reachable, Fits, Decode, CanTransmit, CanRelease, CanAcquire, Incoming, ChunkTrees;
    Step(registry, z, Serve(Remove(id)));
    z' := Do(z, Serve(Remove(id)));
  }

  /** The handler returns, its thread sends the outcome and cleans up. */
  lemma {:induction false} Returns(registry: seq<Handler>, z: Sys, phase: ClientPhase, kind: Kind, ok: bool, v: Value) returns (z': Sys)
    requires Reachable(registry, z) && Busy(z, phase, kind)
    requires Fits(Outcome(z.client.nextId, kind, ok, v)) && Terminal(Outcome(z.client.nextId, kind, ok, v))
    ensures Reachable(registry, z') && z'.client == z.client && z'.read == z.read && z'.consumed == |z'.up|
    ensures z'.srv.loop.Reading? && z'.srv.out.hold.None? && !z'.srv.out.broken && z'.begun == z.begun && z'.up == z.up
    ensures z'.srv.out.log == z.srv.out.log + [Outcome(z.client.nextId, kind, ok, v)]
    ensures var id := z.client.nextId;
            && id in z'.srv.calls && z'.srv.calls[id].args == z.srv.calls[id].args && z'.srv.calls[id].taken == z.srv.calls[id].taken
            && z'.srv.calls[id].kind == kind && z'.srv.calls[id].produced == z.srv.calls[id].produced
            && z'.srv.calls[id].returned == Some(Returned(ok, v))
  {
    hide Reachable, Fits, Outcome;
    var id := z.client.nextId;
    var z1 := TakesLock(registry, z, id, ok, v);
    var z2 := SendsFrame(registry, z1, id, Outcome(id, kind, ok, v));
    z' := CleansUp(registry, z2, id);
  }

  /** What the client will read ends with a message that ends the call. */
  predicate EndIsComing(z: Sys) {
    && z.client.phase.Open? && MayRead(z) && !z.srv.out.broken && z.read < |z.srv.out.log|
    && Terminal(z.srv.out.log[|z.srv.out.log| - 1])
  }

  lemma {:induction false} ReadFacts(registry: seq<Handler>, z: Sys)
    requires Reachable(registry, z) && !z.srv.out.broken
    ensures ReadInv(z) && OutputInv(z.srv.out)
  {
    hide Reachable, Inv, UpInv, AskedInv, Finished, Quiet, InFlight, Unread, ReadInv, OutputInv, LogInv, ShapeInv, CutShort;
    ReachableInv(registry, z);
    LogOf(z.srv);
  }

  /** What a read does, in terms of the message it finds. */
  lemma {:induction false} ReadOf(z: Sys, p: bytes, rest: bytes, m: Outgoing)
    requires MayRead(z) && Incoming(z) == Some((p, rest)) && Decode(p) == Some(Received(m))
    ensures Can(z, Read) && DoRead(z).read == z.read + 1 && DoRead(z).srv == z.srv && DoRead(z).up == z.up && DoRead(z).begun == z.begun && DoRead(z).consumed == z.consumed
    ensures DoRead(z).client.nextId == z.client.nextId
    ensures DoRead(z).client.phase.Idle? || (DoRead(z).client.phase == z.client.phase && m.StreamChunk?)
  {
    hide Incoming, Enabled, Decode, Received, StrEq, Fits, Next;
    TypeTells(m);
  }

  lemma {:induction false} CanReadNow(registry: seq<Handler>, z: Sys)
    requires Reachable(registry, z) && EndIsComing(z)
    ensures Can(z, Read) && DoRead(z).read == z.read + 1 && DoRead(z).srv == z.srv && DoRead(z).up == z.up && DoRead(z).begun == z.begun && DoRead(z).consumed == z.consumed
    ensures DoRead(z).client.nextId == z.client.nextId
    ensures DoRead(z).client.phase.Idle? || (DoRead(z).client.phase == z.client.phase && z.srv.out.log[z.read].StreamChunk?)
  {
    hide Reachable, ReadInv, OutputInv, Incoming, Can, DoRead, Decode, Received, Terminal, MayRead, Encode, Offset, AllFit;
    ReadFacts(registry, z);
    FrameIsThere(z);
    ReadsNext(z);
    ReadOf(z, Incoming(z).value.0, Incoming(z).value.1, z.srv.out.log[z.read]);
  }

  lemma {:induction false} FrameIsThere(z: Sys)
    requires ReadInv(z) && OutputInv(z.srv.out) && !z.srv.out.broken && z.read < |z.srv.out.log|
    ensures Incoming(z).Some?
  {
    hide Encode, ParseOne, Partial, OutputInv;
    NextFrame(z.srv.out, z.read);
  }

  /** The client reads until the call is over. */
  lemma {:induction false} ReadsToEnd(registry: seq<Handler>, z: Sys) returns (z': Sys)
    requires Reachable(registry, z) && EndIsComing(z)
    ensures Reachable(registry, z') && z'.client.phase.Idle? && z'.client.nextId == z.client.nextId
    ensures z'.srv == z.srv && z'.up == z.up && z'.begun == z.begun && z'.consumed == z.consumed
    decreases |z.srv.out.log| - z.read
  {
    hide Reachable, Can, DoRead, Terminal;
    CanReadNow(registry, z);
    StepRead(registry, z);
    z' := DoRead(z);
    if z'.client.phase.Open? {
      NotLast(z);
      z' := ReadsToEnd(registry, z');
    }
  }

  lemma {:induction false} StepRead(registry: seq<Handler>, z: Sys)
    requires Reachable(registry, z) && Can(z, Read)
    ensures Reachable(registry, DoRead(z))
  {
    hide Reachable, Can, DoRead;
    Step(registry, z, Read);
  }

  lemma {:induction false} NotLast(z: Sys)
    requires EndIsComing(z) && z.srv.out.log[z.read].StreamChunk?
    ensures z.read + 1 < |z.srv.out.log|
  {
  }

  /** Everything the client sends and the handler sends for one call fits. */
  ghost predicate AllMessagesFit(id: uint64, a: Ask, ups: seq<Value>, downs: seq<Value>, v: Value) {
    && (forall m :: AsksFor(m, id, a) ==> Fits(m))
    && (forall i :: 0 <= i < |ups| ==> Fits(StreamChunk(id, ups[i])))
    && (forall i :: 0 <= i < |downs| ==> Fits(StreamChunk(id, downs[i])))
    && (a.form.Plain? || a.form.Export? ==> Fits(Response(id, v)))
  }

  lemma {:induction false} OutcomeFits(id: uint64, kind: Kind, ok: bool, v: Value)
    requires kind.Unary? || kind.ClientStream? ==> Fits(Response(id, v))
    requires !kind.Refused?
    ensures Fits(Outcome(id, kind, ok, v)) && Terminal(Outcome(id, kind, ok, v))
  {
    hide Fits, Ascii;
    SmallFits(id, Ascii("Error"), Ascii("handler returned an error"));
  }

  /** What the client sends after the request: its chunks, and the mark that closes its half. */
  function HalfStream(id: uint64, f: Form, ups: seq<Value>): seq<Outgoing> {
    match f
    case Export => Said(id, ups) + [StreamClose(id)]
    case Duplex => Said(id, ups) + [StreamEnd(id)]
    case _ => []
  }

  function InputItems(f: Form, ups: seq<Value>): seq<Item> {
    if f.Export? || f.Duplex? then ChunkItems(ups) + [End] else []
  }

  /** The client's half of the stream goes up and the handler takes it. */
  lemma {:induction false} SendsHalf(registry: seq<Handler>, z: Sys, f: Form, kind: Kind, ups: seq<Value>) returns (z': Sys)
    requires Reachable(registry, z) && Busy(z, Open(f, false), kind) && (ups != [] ==> f.Export? || f.Duplex?)
    requires forall i :: 0 <= i < |ups| ==> Fits(StreamChunk(z.client.nextId, ups[i]))
    requires z.srv.calls[z.client.nextId].taken == []
    ensures Reachable(registry, z') && Busy(z', z'.client.phase, kind) && z'.client.phase == Open(f, f.Export? || f.Duplex?)
    ensures z'.client.nextId == z.client.nextId && z'.srv.out == z.srv.out && z'.begun == z.begun
    ensures z'.up == z.up + HalfStream(z.client.nextId, f, ups)
    ensures SameButTaken(z'.srv.calls[z.client.nextId], z.srv.calls[z.client.nextId])
    ensures Items(z'.srv.calls[z.client.nextId].taken) == InputItems(f, ups)
  {
    hide Reachable, Fits, Enabled, Next, Incoming, ChunkItems, Said;
    z' := z;
    if f.Export? || f.Duplex? {
      z' := SendsChunks(registry, z, Open(f, false), kind, ups);
      z' := SendsClose(registry, z', f, kind);
    }
  }

  /** The handler runs: it takes what the client sends, emits its chunks and returns. */
  lemma {:induction false} Serves(
    registry: seq<Handler>, z: Sys, f: Form, kind: Kind, ups: seq<Value>, downs: seq<Value>, ok: bool, v: Value) returns (z': Sys)
    requires Reachable(registry, z) && Busy(z, Open(f, false), kind)
    requires ups != [] ==> f.Export? || f.Duplex?
    requires downs != [] ==> Emits(kind)
    requires forall i :: 0 <= i < |ups| ==> Fits(StreamChunk(z.client.nextId, ups[i]))
    requires forall i :: 0 <= i < |downs| ==> Fits(StreamChunk(z.client.nextId, downs[i]))
    requires Fits(Outcome(z.client.nextId, kind, ok, v)) && Terminal(Outcome(z.client.nextId, kind, ok, v))
    requires z.srv.calls[z.client.nextId].taken == [] && z.srv.calls[z.client.nextId].produced == []
    ensures Reachable(registry, z') && EndIsComing(z') && z'.consumed == |z'.up| && z'.srv.loop.Reading? && z'.srv.out.hold.None?
    ensures z'.client.nextId == z.client.nextId && z.client.nextId in z'.srv.calls
    ensures z'.begun == z.begun && z'.up == z.up + HalfStream(z.client.nextId, f, ups)
    ensures var c := z'.srv.calls[z.client.nextId];
            && c.kind == kind && c.args == z.srv.calls[z.client.nextId].args
            && Items(c.taken) == InputItems(f, ups) && c.produced == downs && c.returned == Some(Returned(ok, v))
  {
    hide Reachable, Fits, Enabled, Next, Incoming, HalfStream, InputItems, Outcome;
    var z1 := SendsHalf(registry, z, f, kind, ups);
    var z2 := EmitsChunks(registry, z1, z1.client.phase, kind, downs);
    z' := Returns(registry, z2, z1.client.phase, kind, ok, v);
    ReadBounded(registry, z2);
  }

  lemma {:induction false} ReadBounded(registry: seq<Handler>, z: Sys)
    requires Reachable(registry, z) && !z.srv.out.broken
    ensures z.read <= |z.srv.out.log|
  {
    hide Reachable, Inv, UpInv, AskedInv, Finished, Quiet, InFlight, Unread, Offset, AllFit, CutShort;
    ReachableInv(registry, z);
  }

  /**
   * Progress: whenever the connection is at rest, a call of any form can be carried through.
   * The client sends the request and its half of the stream, the handler gets the arguments and
   * exactly the chunks and the end mark sent, the client hears exactly the chunks the handler
   * sent and what its return calls for, and the connection is at rest again.
   */
  lemma {:induction false} CallCompletes(
    registry: seq<Handler>, z: Sys, f: Form, func: bytes, args: seq<Value>, kind: Kind, ups: seq<Value>, downs: seq<Value>, ok: bool, v: Value)
    returns (z': Sys)
    requires Reachable(registry, z) && AtRest(z) && z.client.nextId + 1 < TWO_64
    requires FindHandler(registry, func) == Some(kind) && Matches(f, kind)
    requires (ups != [] ==> f.Export? || f.Duplex?) && (downs != [] ==> f.Pull? || f.Duplex?)
    requires AllMessagesFit(z.client.nextId + 1, Ask(f, func, args), ups, downs, v)
    ensures Reachable(registry, z') && AtRest(z') && z'.client.nextId == z.client.nextId + 1
    ensures z'.begun == z.begun + [Ask(f, func, args)]
    ensures var id := z'.client.nextId;
            && id in z'.srv.calls && id in z'.client.heard
            && Ran(Ask(f, func, args), id, kind, z'.srv.calls[id], z'.client.heard[id])
            && z'.srv.calls[id].produced == downs && z'.srv.calls[id].returned == Some(Returned(ok, v))
            && Items(z'.srv.calls[id].taken) == InputItems(f, ups)
            && exists m :: AsksFor(m, id, Ask(f, func, args)) && z'.up == z.up + [m] + HalfStream(id, f, ups)
  {
    hide Reachable, Fits, FindHandler, Heard, Outcome, EndIsComing, Sync, HalfStream, InputItems, CameTo, Ran;
    var id := z.client.nextId + 1;
    var m := RequestOf(id, f, func, args);
    assert AsksFor(m, id, Ask(f, func, args));
    OutcomeFits(id, kind, ok, v);
    var z1 := Opens(registry, z, f, func, args, kind);
    var z2 := Serves(registry, z1, f, kind, ups, downs, ok, v);
    z' := ReadsToEnd(registry, z2);
    Ending(z2);
    CallIsAsked(registry, z', id);
    NoneFailed(registry, z');
    CallsReturnTheOutcome(registry, z', id);
    IdsCount(registry, z);
    RanIt(registry, Ask(f, func, args), id, kind, z'.srv.calls[id], z'.client.heard[id]);
  }

  lemma {:induction false} IdsCount(registry: seq<Handler>, z: Sys)
    requires Reachable(registry, z)
    ensures z.client.nextId == |z.begun|
  {
    hide Arrives, Fits, AsksFor;
    SentAsAsked(Matched, registry, z);
  }

  lemma {:induction false} RanIt(registry: seq<Handler>, a: Ask, id: uint64, kind: Kind, c: Call, heard: seq<Message>)
    requires FindHandler(registry, a.func) == Some(kind) && Matches(a.form, kind) && CameTo(registry, a, id, c, heard)
    ensures Ran(a, id, kind, c, heard)
  {
    hide FindHandler, FirstNamed, Ran, HeardRefusal, Unnamed;
    FindsFirst(registry, a.func);
  }

  lemma {:induction false} Ending(z: Sys)
    requires EndIsComing(z)
    ensures !z.srv.out.broken
  {
  }

  lemma {:induction false} CallIsAsked(registry: seq<Handler>, z: Sys, id: uint64)
    requires Reachable(registry, z) && id in z.srv.calls
    ensures id in z.asked
  {
    hide Reachable, Inv, UpInv, Sync, Cut, Received;
    ReachableInv(registry, z);
  }

  /** A connection starts at rest. */
  lemma {:induction false} RestAtStart(registry: seq<Handler>)
    requires Exported(registry)
    ensures Reachable(registry, InitialSystem(registry)) && AtRest(InitialSystem(registry))
  {
    hide Arrives;
    AtStart(Matched, registry);
  }
}
