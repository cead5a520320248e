/** End-to-end guarantees for the id-blind client. */
module SystemTheorems {
  import opened Bytes
  import opened Framing
  import opened Mpack
  import opened Message
  import opened MessageRoundTrip
  import opened WriteLock
  import opened Server
  import opened ServerInv
  import opened ServerSteps
  import opened System
  import opened SystemSteps
  import opened Requests
  import opened Begun
  import Uplink

  /** Some run of one client against one server, using no single-read form on a streaming function, leads to `z`. */
  ghost predicate Reachable(registry: seq<Handler>, z: Sys) {
    Exported(registry) && Arrives(Matched, registry, z)
  }

  lemma {:induction false} ArrivesInv(care: Care, registry: seq<Handler>, z: Sys)
    requires Exported(registry) && Arrives(care, registry, z) && !care.Anyhow?
    ensures SysInv(z)
  {
    hide SysInv, Run, EndOfRun;
    var moves :| Run(care, InitialSystem(registry), moves) && EndOfRun(care, InitialSystem(registry), moves) == z;
    StartInv(registry);
    RunSys(care, InitialSystem(registry), moves);
  }

  lemma {:induction false} ReachableInv(registry: seq<Handler>, z: Sys)
    requires Reachable(registry, z)
    ensures SysInv(z)
  {
    hide SysInv, Arrives;
    ArrivesInv(Matched, registry, z);
  }

  lemma {:induction false} StepOrCut(z: Sys)
    requires SysInv(z) && !z.srv.out.broken
    ensures z.client.failed == {} ==> Sync(z)
    ensures z.client.failed != {} ==> Cut(z)
    ensures LogInv(z.srv) && OutputInv(z.srv.out) && ShapeInv(z.srv) && AskedInv(z)
  {
    hide Inv, UpInv, AskedInv, Sync, Cut, LogInv, OutputInv, ShapeInv;
    LogOf(z.srv);
  }

  /**
   * Between calls no server frame is left unread, and none is still to come for any call that
   * did not end in a failed read.
   */
  lemma {:induction false} NothingLeftBetweenCalls(registry: seq<Handler>, z: Sys)
    requires Reachable(registry, z) && !z.srv.out.broken && z.client.phase.Idle?
    ensures z.at <= |z.srv.out.wire| && Incoming(z).None?
    ensures forall id :: id in z.srv.calls && id !in z.client.failed ==> Quiet(z.srv.calls[id])
  {
    hide Reachable, SysInv, Quiet, Finished, Fits, ShapeInv, LogInv, OutputInv, ParseOne, Partial, CutShort, AskedInv;
    ReachableInv(registry, z);
    StepOrCut(z);
    assert z.read == |z.srv.out.log|;
    NothingUnread(z.srv.out);
  }

  /** Every message the client reads during call n carries id n, although it never checks. */
  lemma {:induction false} EveryFrameIsOurs(registry: seq<Handler>, z: Sys, id: uint64, i: nat)
    requires Reachable(registry, z) && !z.srv.out.broken
    requires id in z.client.heard && i < |z.client.heard[id]|
    ensures z.client.heard[id][i].id == id
  {
    hide Reachable, SysInv, Quiet, Fits, OutputInv, Shape, Received, FramesOf, SingleReply, AskedInv, ShapeInv;
    ReachableInv(registry, z);
    StepOrCut(z);
    if z.client.failed != {} && (Current(z, id) || id in z.client.failed) {
      assert CutShort(z, id);
      FramesCarryId(z.srv.out.log, id);
      TypeTells(FramesOf(z.srv.out.log, id)[i]);
    } else if Current(z, id) {
      FramesCarryId(z.srv.out.log[..z.read], id);
      TypeTells(ReadSoFar(z)[i]);
    } else {
      assert Finished(z, id);
      FramesCarryId(z.srv.out.log, id);
      TypeTells(z.srv.calls[id].emitted[i]);
    }
  }

  /**
   * A call that ended in a failed read: the server has closed the connection, and the call has
   * heard every complete frame there was for it, all of them chunks.
   */
  lemma {:induction false} FailedCalls(registry: seq<Handler>, z: Sys, id: uint64)
    requires Reachable(registry, z) && !z.srv.out.broken && id in z.client.failed
    ensures z.srv.loop.Ended? && id in z.asked && id in z.client.heard
    ensures z.client.heard[id] == Heard(FramesOf(z.srv.out.log, id)) && OnlyChunks(FramesOf(z.srv.out.log, id))
    ensures id in z.srv.calls ==> z.client.heard[id] == Heard(z.srv.calls[id].emitted)
  {
    hide Reachable, SysInv, Quiet, Fits, OutputInv, Shape, Received, FramesOf, AskedInv, ShapeInv, Finished, Heard, OnlyChunks;
    ReachableInv(registry, z);
    StepOrCut(z);
    assert CutShort(z, id);
  }

  /** While the server's loop is running, no read has failed. */
  lemma {:induction false} NoneFailed(registry: seq<Handler>, z: Sys)
    requires Reachable(registry, z) && !z.srv.out.broken && !z.srv.loop.Ended?
    ensures z.client.failed == {} && Sync(z)
  {
    hide Reachable, SysInv, Sync, Quiet, Finished, CutShort, ReadInv;
    ReachableInv(registry, z);
    StepOrCut(z);
  }

  lemma {:induction false} FramesCarryId(log: seq<Outgoing>, id: uint64)
    ensures AllFor(FramesOf(log, id), id)
  {
    if log != [] {
      FramesCarryId(log[..|log| - 1], id);
    }
  }

  /** The message a finished call ended with on the wire. */
  function Last(ms: seq<Outgoing>): Outgoing
    requires ms != []
  {
    ms[|ms| - 1]
  }

  /** What a call that ran came to: the handler got the program's arguments, and the client heard what the handler sent and returned. */
  predicate Ran(a: Ask, id: uint64, kind: Kind, c: Call, heard: seq<Message>) {
    && c.kind == kind
    && c.args == (if a.form.Plain? || a.form.Pull? then a.args else [])
    && c.returned.Some? && c.outcome.Some? && Concludes(id, kind, c.returned.value, c.outcome.value)
    && heard == Heard(Said(id, c.produced) + [c.outcome.value])
    && (c.produced != [] ==> kind.Stream? || kind.Bidi?)
  }

  predicate HeardRefusal(id: uint64, heard: seq<Message>, errorType: string, text: string) {
    heard == [Received(Error(id, Some(Ascii(errorType)), Some(Ascii(text))))]
  }

  /** What call `id` must have come to, read off what the program asked and the server's registry. */
  ghost predicate CameTo(registry: seq<Handler>, a: Ask, id: uint64, c: Call, heard: seq<Message>) {
    && (Unnamed(registry, a.func) ==> HeardRefusal(id, heard, "NotFoundError", "function not exported"))
    && (forall i :: FirstNamed(registry, a.func, i) ==>
          match registry[i].kind
          case Bidi =>
            if a.form.Duplex? then Ran(a, id, Bidi, c, heard)
            else HeardRefusal(id, heard, "TypeError", "function requires stream:true (bidi call)")
          case ClientStream =>
            if a.form.Duplex? then HeardRefusal(id, heard, "TypeError", "function is client-streaming, not bidi")
            else Ran(a, id, ClientStream, c, heard)
          case kind => Ran(a, id, kind, c, heard))
  }

  /**
   * A call that is over, and did not end in a failed read, came to what its program asked for:
   * the server ran the first function exported under the name, with the program's arguments,
   * and the client heard exactly the values that the handler sent, in order, and then the
   * message that its return calls for; or the client heard exactly the refusal that is due.
   */
  lemma {:induction false} CallsReturnTheOutcome(registry: seq<Handler>, z: Sys, id: uint64)
    requires Reachable(registry, z) && !z.srv.out.broken && id in z.asked && !Current(z, id) && id !in z.client.failed
    ensures 1 <= id <= |z.begun| && id in z.srv.calls && id in z.client.heard
    ensures CameTo(registry, z.begun[id - 1], id, z.srv.calls[id], z.client.heard[id])
  {
    hide Arrives, SysInv, Quiet, Received, Shape, Flow, Terminal, AskedInv, Heard, AsksFor, Dispatched, Decided, Voiced, CameTo, Fits;
    ReachableInv(registry, z);
    FinishedOf(z, id);
    SentAsAsked(Matched, registry, z);
    Uplink.ServerOfSystem(Matched, registry, z);
    ReachableRequests(registry, z.srv);
    assert Settled(z.srv, id);
    var c := z.srv.calls[id];
    WholeWord(id, c);
    AskedIsReceived(z, id);
    RightCall(registry, z.begun[id - 1], z.asked[id], id, c, z.client.heard[id]);
  }

  lemma {:induction false} AskedIsReceived(z: Sys, id: uint64)
    requires AskedInv(z) && id in z.srv.calls && Flow(z.srv, id)
    ensures id in z.asked && z.asked[id].Request?
    ensures z.srv.calls[id].src < |z.srv.input| && z.srv.input[z.srv.calls[id].src] == Received(z.asked[id])
    ensures !z.srv.calls[id].kind.Refused? ==> z.srv.calls[id].args == z.asked[id].args
  {
    hide StrEq, Routed, Pending;
  }

  /** The frames of a call that has put its terminal on the wire. */
  lemma {:induction false} WholeWord(id: uint64, c: Call)
    requires Shape(id, c, false) && Voiced(id, c) && Quiet(c) && c.emitted != [] && Terminal(Last(c.emitted))
    ensures c.outcome.Some? && c.emitted == Said(id, c.produced) + [c.outcome.value]
    ensures c.produced != [] ==> Emits(c.kind)
  {
    hide Fits, MayEnd, Chunky;
    assert Said(id, c.produced) + [] == Said(id, c.produced);
    if c.produced != [] { assert c.emitted[0] == StreamChunk(id, c.produced[0]); }
  }

  lemma {:induction false} SameName(registry: seq<Handler>, func: bytes)
    ensures Unnamed(registry, CStr(func)) <==> Unnamed(registry, func)
    ensures forall i :: FirstNamed(registry, CStr(func), i) <==> FirstNamed(registry, func, i)
  {
    CStrTwice(func);
    hide CStr;
  }

  lemma {:induction false} RightCall(registry: seq<Handler>, a: Ask, m: Outgoing, id: uint64, c: Call, heard: seq<Message>)
    requires AsksFor(m, id, a) && Dispatched(registry, Received(m), c) && Decided(id, c)
    requires !c.kind.Refused? ==> c.args == m.args
    requires c.outcome.Some? && heard == Heard(Said(id, c.produced) + [c.outcome.value]) && (c.produced != [] ==> Emits(c.kind))
    requires Exported(registry)
    ensures CameTo(registry, a, id, c, heard)
  {
    hide CStr, FirstNamed, Unnamed, Concludes, Heard, Ascii;
    SameName(registry, a.func);
    if c.kind.Refused? { HeardOne(Said(id, c.produced) + [c.outcome.value]); }
    EntryIsExported(registry, a.func);
  }

  lemma {:induction false} EntryIsExported(registry: seq<Handler>, func: bytes)
    requires Exported(registry)
    ensures forall i :: FirstNamed(registry, func, i) ==> 0 <= i < |registry| && !registry[i].kind.Refused?
  {
    hide CStr;
  }

  lemma {:induction false} HeardOne(ms: seq<Outgoing>)
    requires |ms| == 1
    ensures Heard(ms) == [Received(Last(ms))]
  {
    hide Received;
    assert ms == [Last(ms)];
  }

  lemma {:induction false} FinishedOf(z: Sys, id: uint64)
    requires SysInv(z) && !z.srv.out.broken && id in z.asked && !Current(z, id) && id !in z.client.failed
    ensures Finished(z, id) && AskedInv(z) && z.asked[id].Request?
    ensures Shape(id, z.srv.calls[id], z.srv.out.broken) && Flow(z.srv, id)
  {
    hide SysInv, Quiet, Shape, LogInv, OutputInv, ReadInv, InFlight, Unread, Flow, Terminal, Received, CutShort;
    StepOrCut(z);
    InvOf(z);
    FlowOf(z.srv, id);
    assert Finished(z, id);
  }

  lemma {:induction false} InvOf(z: Sys)
    requires SysInv(z)
    ensures Inv(z.srv)
  {
    hide Inv, UpInv, AskedInv, Sync, Cut;
  }

  lemma {:induction false} FlowOf(s: Conn, id: uint64)
    requires Inv(s)
    ensures id in s.calls ==> Flow(s, id)
  {
    hide OutputInv, LockInv, LogInv, ShapeInv, QueueInv, LoopInv, Flow;
  }

  /** The server is never offered a request id it has already seen: what the client sends can always be read. */
  lemma {:induction false} IdsAreNeverReused(registry: seq<Handler>, z: Sys)
    requires Reachable(registry, z) && z.srv.loop.Reading? && z.consumed < |z.up|
    ensures Can(z, Serve(Receive(Encode(z.up[z.consumed]))))
  {
    hide Reachable, Inv, AskedInv, Sync, Cut, Fits, Encode, Decode, Received, StrEq, Enabled, UpInv;
    ReachableInv(registry, z);
    var m := z.up[z.consumed];
    NextSent(z);
    FreshIdIsRead(z.srv, m);
  }

  lemma {:induction false} FreshIdIsRead(s: Conn, m: Outgoing)
    requires s.loop.Reading? && Fits(m) && (m.Request? ==> m.id !in s.calls)
    ensures Enabled(s, Receive(Encode(m)))
  {
    hide Encode, Decode, Received, StrEq, CanTransmit, CanRelease, CanAcquire;
    Delivered(m);
    TypeTells(m);
  }
}
