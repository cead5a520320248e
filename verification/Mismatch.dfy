/**
 * Why single-read forms are kept away from streaming functions: whatever the registry, a
 * `call` or `export_stream` on a streaming function can leave the connection out of step, so
 * that a later call is answered with a frame of an earlier one.
 */
module Mismatch {
  import opened Bytes
  import opened Framing
  import opened Mpack
  import opened Message
  import opened MessageRoundTrip
  import opened WriteLock
  import opened Server
  import opened ServerInv
  import opened System
  import opened SystemSteps

  /** The client opens a call and comes to the point where it waits for the answer. */
  lemma {:induction false} Opens(registry: seq<Handler>, z: Sys, f: Form, func: bytes, args: seq<Value>) returns (z': Sys)
    requires Arrives(Anyhow, registry, z) && z.client.phase.Idle? && z.client.nextId + 1 < TWO_64
    requires OneShot(f) && Fits(RequestOf(z.client.nextId + 1, f, func, args))
    ensures Arrives(Anyhow, registry, z') && MayRead(z') && z'.client.phase.form == f
    ensures z'.client.nextId == z.client.nextId + 1 && z'.client.heard == z.client.heard[z'.client.nextId := []]
    ensures z'.srv == z.srv && z'.at == z.at && z'.read == z.read && z'.consumed == z.consumed
    ensures |z.up| < |z'.up| && z'.up[|z.up|] == RequestOf(z'.client.nextId, f, func, args)
  {
    hide Arrives, Fits, Encode, Enabled, Next, Incoming;
    var begin := Begin(f, func, args);
    Advance(Anyhow, registry, z, begin);
    z' := Do(z, begin);
    if f.Export? {
      Advance(Anyhow, registry, z', SendClose);
      z' := Do(z', SendClose);
    }
  }

  /** The server starts the streaming handler for the one request it is sent. */
  lemma {:induction false} Starts(registry: seq<Handler>, z: Sys, f: Form, func: bytes, args: seq<Value>) returns (z': Sys)
    requires Arrives(Anyhow, registry, z) && z.srv == Init(registry) && z.consumed < |z.up| && Mismatched(registry, f, func)
    requires z.up[z.consumed] == RequestOf(1, f, func, args) && Fits(RequestOf(1, f, func, args))
    ensures Arrives(Anyhow, registry, z') && Speaking(z') && z'.srv.out == WriteLock.Idle
    ensures z'.client == z.client && z'.at == z.at && z'.read == z.read
  {
    hide Arrives, Encode, Decode, Received, StrEq, FindHandler;
    var m := RequestOf(1, f, func, args);
    Delivered(m);
    TypeTells(m);
    StartsStream(registry, m);
    var mv := Serve(Receive(Encode(m)));
    assert Can(z, mv);
    Advance(Anyhow, registry, z, mv);
    z' := Do(z, mv);
  }

  lemma {:induction false} StartsStream(registry: seq<Handler>, m: Outgoing)
    requires m.Request? && m.func.Some? && !m.stream && FindHandler(registry, m.func.value) == Some(Stream)
    ensures Judge(registry, Received(m)) == Accept(Stream)
  {
    hide FindHandler, CStr, Ascii;
    FindByCStr(registry, m.func.value);
  }

  /** The first call's handler is running and nobody is writing. */
  predicate Speaking(z: Sys) {
    && 1 in z.srv.calls && z.srv.calls[1].kind.Stream? && z.srv.calls[1].phase.Running?
    && z.srv.out.hold.None? && !z.srv.out.broken && z.srv.loop.Reading?
  }

  /** The handler emits one chunk, whole. */
  lemma {:induction false} EmitsOne(registry: seq<Handler>, z: Sys, v: Value) returns (z': Sys)
    requires Arrives(Anyhow, registry, z) && Speaking(z) && Fits(StreamChunk(1, v))
    ensures Arrives(Anyhow, registry, z') && Speaking(z')
    ensures z'.client == z.client && z'.at == z.at && z'.read == z.read
    ensures z'.srv.out == z.srv.out.(log := z.srv.out.log + [StreamChunk(1, v)], wire := z.srv.out.wire + FrameOf(StreamChunk(1, v)))
  {
    hide Arrives, Fits, Encode, Decode, Frame;
    var m := StreamChunk(1, v);
    var k := |FrameOf(m)|;
    FrameNotEmpty(m);
    Advance(Anyhow, registry, z, Serve(Emit(1, v)));
    var z1 := Do(z, Serve(Emit(1, v)));
    Advance(Anyhow, registry, z1, Serve(Lock(1)));
    var z2 := Do(z1, Serve(Lock(1)));
    assert CanTransmit(z2.srv.out, k);
    Advance(Anyhow, registry, z2, Serve(Send(1, k)));
    var z3 := Do(z2, Serve(Send(1, k)));
    Advance(Anyhow, registry, z3, Serve(Unlock(1)));
    z' := Do(z3, Serve(Unlock(1)));
    assert FrameOf(m)[0..k] == FrameOf(m);
  }

  /** The client reads the next frame whole, whoever it is for. */
  lemma {:induction false} Reads(registry: seq<Handler>, z: Sys, m: Outgoing, rest: bytes) returns (z': Sys)
    requires Arrives(Anyhow, registry, z) && MayRead(z) && OneShot(z.client.phase.form) && z.client.nextId in z.client.heard
    requires Fits(m) && z.at <= |z.srv.out.wire| && z.srv.out.wire[z.at..] == FrameOf(m) + rest
    ensures Arrives(Anyhow, registry, z') && z'.client.phase.Idle? && z'.client.nextId == z.client.nextId
    ensures z'.client.heard == z.client.heard[z.client.nextId := z.client.heard[z.client.nextId] + [Received(m)]]
    ensures z'.srv == z.srv && z'.at == |z.srv.out.wire| - |rest|
  {
    hide Arrives, Encode, Decode, ParseOne, Received, StrEq, Enabled, Next;
    ParseFrame(Encode(m), rest);
    Delivered(m);
    Advance(Anyhow, registry, z, Read);
    z' := Do(z, Read);
  }

  /**
   * On any registry, with any single-read form on a streaming function and any chunk value:
   * some run ends with the second call answered by a frame that carries the first call's id.
   */
  lemma {:induction false} SingleReadOnStreamDesyncs(registry: seq<Handler>, f: Form, func: bytes, args: seq<Value>, v: Value)
    returns (z: Sys)
    requires (f.Plain? || f.Export?) && FindHandler(registry, func) == Some(Stream)
    requires Fits(RequestOf(1, f, func, args)) && Fits(RequestOf(2, f, func, args)) && Fits(StreamChunk(1, v))
    ensures Arrives(Anyhow, registry, z) && !z.srv.out.broken && z.client.phase.Idle?
    ensures 2 in z.client.heard && z.client.heard[2] == [Received(StreamChunk(1, v))] && z.client.heard[2][0].id == 1
  {
    hide Arrives, Encode, Frame, Received, FindHandler, Fits;
    var m := StreamChunk(1, v);
    AtStart(Anyhow, registry);
    z := Opens(registry, InitialSystem(registry), f, func, args);
    z := Starts(registry, z, f, func, args);
    z := EmitsOne(registry, z, v);
    z := EmitsOne(registry, z, v);
    var fr := FrameOf(m);
    assert z.srv.out.wire == fr + fr && z.srv.out.wire[0..] == fr + fr;
    z := Reads(registry, z, m, fr);
    z := Opens(registry, z, f, func, args);
    assert (fr + fr)[|fr|..] == fr + [];
    z := Reads(registry, z, m, []);
    TypeTells(m);
  }
}
