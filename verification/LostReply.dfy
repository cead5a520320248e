/**
 * A response that does not fit a frame is dropped without a word (c/src/server.c:407-418 over
 * c/src/framing.c:76-79), and the client that is waiting for it waits until the server closes
 * the connection; then its read fails and it has heard nothing.
 */
module LostReply {
  import opened Bytes
  import opened Framing
  import opened Mpack
  import opened Message
  import opened MessageRoundTrip
  import opened WriteLock
  import opened Server
  import opened ServerInv
  import opened System
  import opened SystemSteps
  import opened SystemTheorems
  import opened Completion
  import ServerTheorems

  /** The client waits for a call that will put nothing more on the wire, and has read all there is. */
  predicate Stranded(z: Sys) {
    && z.client.phase.Open? && !z.srv.out.broken && z.read == |z.srv.out.log|
    && z.client.nextId in z.srv.calls && Quiet(z.srv.calls[z.client.nextId])
  }

  // ---------------------------------------------------------------------------
  // It happens
  // ---------------------------------------------------------------------------

  /** For every unary function, arguments and result that does not fit: a run that ends with the call done and not a byte sent. */
  lemma {:induction false} OversizedReplyIsDropped(registry: seq<Handler>, z: Sys, func: bytes, args: seq<Value>, v: Value) returns (z': Sys)
    requires Reachable(registry, z) && AtRest(z) && z.client.nextId + 1 < TWO_64
    requires FindHandler(registry, func) == Some(Unary)
    requires Fits(RequestOf(z.client.nextId + 1, Plain, func, args)) && !Fits(Response(z.client.nextId + 1, v))
    ensures Reachable(registry, z') && Stranded(z') && z'.client.nextId == z.client.nextId + 1
    ensures z'.srv.out == z.srv.out
    ensures z'.srv.calls[z'.client.nextId].phase.Done? && z'.srv.calls[z'.client.nextId].emitted == []
    ensures z'.srv.calls[z'.client.nextId].outcome == Some(Response(z'.client.nextId, v))
  {
    hide Reachable, Fits, Encode, Decode, Frame, FindHandler, Incoming;
    var id := z.client.nextId + 1;
    var z1 := Opens(registry, z, Plain, func, args, Unary);
    Step(registry, z1, Serve(Return(id, true, v)));
    var z2 := Do(z1, Serve(Return(id, true, v)));
    Step(registry, z2, Serve(Remove(id)));
    z' := Do(z2, Serve(Remove(id)));
    SilentCall(registry, z');
  }

  /** A call that has said nothing leaves nothing to read. */
  lemma {:induction false} SilentCall(registry: seq<Handler>, z: Sys)
    requires Reachable(registry, z) && !z.srv.out.broken
    requires z.client.phase.Open? && z.client.nextId in z.srv.calls && z.srv.calls[z.client.nextId].emitted == []
    ensures z.read == |z.srv.out.log|
  {
    hide Reachable, SysInv, AskedInv, Finished, Quiet, Offset, OnlyChunks, FramesOf, SingleReply, OutputInv, ShapeInv, CutShort;
    ReachableInv(registry, z);
    StepOrCut(z);
    var id, log := z.client.nextId, z.srv.out.log;
    if z.client.failed == {} && z.read < |log| {
      assert Unread(z)[0] == log[z.read] && log[z.read].id == id;
      FrameOfCall(log, z.read, id);
    }
  }

  lemma {:induction false} FrameOfCall(log: seq<Outgoing>, i: nat, id: uint64)
    requires i < |log| && log[i].id == id
    ensures FramesOf(log, id) != []
  {
    if i < |log| - 1 { FrameOfCall(log[..|log| - 1], i, id); }
  }

  // ---------------------------------------------------------------------------
  // It lasts
  // ---------------------------------------------------------------------------

  /** Only a thread that is writing can break the connection. */
  lemma {:induction false} BreaksOnlyWriting(s: Conn, a: Action)
    requires Enabled(s, a) && !s.out.broken && Next(s, a).out.broken
    ensures a.SendFails? && a.id in s.calls && s.calls[a.id].phase.Writing?
  {
    hide Decode, Fits, CanRelease, CanAcquire, Encode, Judge, IsStreamFrame, StrEq, ChunkTrees, Outcome;
  }

  /** Nobody the client still waits for, or has heard to the end, can put anything on the wire. */
  lemma {:induction false} AllQuiet(z: Sys)
    requires Sync(z) && Stranded(z)
    ensures forall id :: id in z.srv.calls ==> Quiet(z.srv.calls[id])
  {
    hide Quiet, ReadInv, InFlight, Finished, Unread;
  }

  /** Nothing the server has still to read is a request. */
  lemma {:induction false} NoRequestLeft(z: Sys)
    requires Sync(z) && UpInv(z) && Stranded(z) && z.consumed < |z.up|
    ensures !z.up[z.consumed].Request?
  {
    hide Quiet, ReadInv, InFlight, Unread, Fits, Received;
    var m := z.up[z.consumed];
    assert SentOk(z, m);
    if m.Request? && m.id !in z.srv.calls { MustBeCurrent(z, m.id); }
  }

  lemma {:induction false} ServerStaysQuiet(z: Sys, a: Action)
    requires SysInv(z) && Stranded(z) && z.client.failed == {} && Can(z, Serve(a))
    ensures Stranded(Do(z, Serve(a))) && Do(z, Serve(a)).srv.out.log == z.srv.out.log
  {
    hide Inv, Enabled, Next, UpInv, AskedInv, Fits, Encode, Decode, Received, Sync, Quiet, Cut;
    AllQuiet(z);
    if Next(z.srv, a).out.broken {
      BreaksOnlyWriting(z.srv, a);
      NotQuiet(z.srv.calls[a.id]);
    }
    if a.Receive? {
      var m := z.up[z.consumed];
      NextSent(z);
      NoRequestLeft(z);
      Delivered(m);
      ReceiveIsRoute(z.srv, a, Received(m));
      RouteStream(z.srv, m);
    } else {
      ServeEffect(z.srv, a);
    }
  }

  /** No read has failed before: a call begun after that is never in the server's hands. */
  lemma {:induction false} StrandedFirst(z: Sys)
    requires SysInv(z) && Stranded(z)
    ensures z.client.failed == {}
  {
    hide Inv, UpInv, AskedInv, Sync, Quiet, Finished, CutShort, ReadInv;
  }

  lemma {:induction false} NothingToRead(z: Sys)
    requires SysInv(z) && Stranded(z)
    ensures Incoming(z).None?
  {
    hide Inv, UpInv, AskedInv, Quiet, InFlight, Finished, Unread, ParseOne, Partial, Fits, CutShort;
    LogOf(z.srv);
    hide LogInv, ShapeInv, OutputInv;
    NothingUnread(z.srv.out);
  }

  /** The call ended in a failed read, after the server's loop had ended. */
  predicate FailedAfterClose(z: Sys, id: uint64) {
    id in z.client.failed && z.srv.loop.Ended?
  }

  /** A stranded call is still stranded, or has failed; it has heard nothing more. */
  predicate Fate(z: Sys, id: uint64, heard: seq<Message>) {
    && id in z.client.heard && z.client.heard[id] == heard && id <= z.client.nextId
    && ((Stranded(z) && z.client.nextId == id && z.client.failed == {})
        || (FailedAfterClose(z, id) && (z.client.phase.Open? ==> id < z.client.nextId)))
  }

  lemma {:induction false} MoveFate(z: Sys, mv: Move, id: uint64, heard: seq<Message>)
    requires SysInv(z) && Fate(z, id, heard) && Allowed(Matched, z, mv)
    ensures Fate(Do(z, mv), id, heard)
  {
    hide SysInv, Mismatched, Incoming, Enabled, Fits, Next, Quiet;
    if id in z.client.failed {
      if mv.Serve? { EndedStays(z.srv, mv.a); }
    } else {
      NothingToRead(z);
      if mv.Serve? { ServerStaysQuiet(z, mv.a); }
    }
  }

  lemma {:induction false} RunFate(z: Sys, moves: seq<Move>, id: uint64, heard: seq<Message>)
    requires SysInv(z) && Fate(z, id, heard) && Run(Matched, z, moves)
    ensures Fate(EndOfRun(Matched, z, moves), id, heard)
    decreases |moves|
  {
    hide SysInv, Fate, Can, Mismatched, Do;
    if moves != [] {
      MoveFate(z, moves[0], id, heard);
      MoveKeeps(z, moves[0]);
      RunFate(Do(z, moves[0]), moves[1..], id, heard);
    }
  }

  /**
   * A stranded call stays open until the server's loop has ended, and the only end it can come
   * to is a failed read after that; on no continuation does it hear anything more.
   */
  lemma {:induction false} WaitsUntilClosed(registry: seq<Handler>, z: Sys, moves: seq<Move>)
    requires Reachable(registry, z) && Stranded(z) && Run(Matched, z, moves)
    ensures var z', id := EndOfRun(Matched, z, moves), z.client.nextId;
            && id in z.client.heard && id in z'.client.heard && z'.client.heard[id] == z.client.heard[id]
            && ((z'.client.phase.Open? && z'.client.nextId == id) || FailedAfterClose(z', id))
            && (!z'.srv.loop.Ended? ==> z'.client.phase.Open? && z'.client.nextId == id)
  {
    hide Reachable, SysInv, Run, EndOfRun, Quiet;
    ReachableInv(registry, z);
    StrandedFirst(z);
    StepOrCut(z);
    SyncParts(z);
    hide Sync;
    RunFate(z, moves, z.client.nextId, z.client.heard[z.client.nextId]);
  }

  /** And it does come to that end once the loop has ended, as soon as the client reads. */
  lemma {:induction false} FailsOnceClosed(registry: seq<Handler>, z: Sys)
    requires Reachable(registry, z) && Stranded(z) && z.srv.loop.Ended? && MayRead(z)
    ensures Can(z, ReadFails) && FailedAfterClose(DoReadFails(z), z.client.nextId)
  {
    hide Reachable, SysInv, Quiet, Incoming, Enabled, Fits;
    ReachableInv(registry, z);
    NothingToRead(z);
  }

  // ---------------------------------------------------------------------------
  // And only to responses that do not fit
  // ---------------------------------------------------------------------------

  /** When the call the client waits for is over, the client is stranded if and only if the outcome does not fit. */
  lemma {:induction false} StrandedIffOversized(registry: seq<Handler>, z: Sys)
    requires Reachable(registry, z) && z.client.phase.Open? && !z.srv.out.broken
    requires z.client.nextId in z.srv.calls && ServerTheorems.Over(z.srv.calls[z.client.nextId])
    ensures var c := z.srv.calls[z.client.nextId];
            c.outcome.Some? && (Stranded(z) <==> !Fits(c.outcome.value))
  {
    hide Reachable, SysInv, AskedInv, Finished, Offset, FramesOf, SingleReply, Fits, Shape, OutputInv;
    ReachableInv(registry, z);
    StepOrCut(z);
    var id, log := z.client.nextId, z.srv.out.log;
    OverWord(id, z.srv.calls[id]);
    if z.srv.calls[id].emitted == [] { SilentCall(registry, z); }
    if z.read == |log| { assert log[..z.read] == log; }
  }

  lemma {:induction false} OverWord(id: uint64, c: Call)
    requires Shape(id, c, false) && ServerTheorems.Over(c)
    ensures c.outcome.Some?
    ensures !Fits(c.outcome.value) ==> c.emitted == []
    ensures Fits(c.outcome.value) ==> !OnlyChunks(c.emitted)
  {
    hide Fits;
    if c.emitted != [] { assert c.emitted[0].StreamChunk? || |c.emitted| == 1; }
  }
}
