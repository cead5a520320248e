/**
 * A call form that sends no end mark, used on a client-stream function: the server accepts the
 * request (c/src/server.c:514-523), the handler waits for the end of a stream the client will
 * never send, and the client waits for the handler.
 */
module MutualWait {
  import opened Bytes
  import opened Framing
  import opened Mpack
  import opened Message
  import opened MessageRoundTrip
  import opened StreamInput
  import opened WriteLock
  import opened Server
  import opened ServerInv
  import opened ServerSteps
  import opened System
  import opened SystemSteps
  import opened SystemTheorems
  import opened Uplink
  import opened Completion
  import LostReply
  import ServerTheorems

  /** Forms that only read. */
  predicate OnlyReads(f: Form) {
    f.Plain? || f.Pull?
  }

  /**
   * Exactly these pairs of form and kind are accepted with stream input: the two that match,
   * and the two forms that only read on a client-stream function.
   */
  lemma {:induction false} AcceptedPairs(registry: seq<Handler>, id: uint64, f: Form, func: bytes, args: seq<Value>, kind: Kind)
    requires FindHandler(registry, func) == Some(kind) && HasInput(kind)
    ensures Judge(registry, Received(RequestOf(id, f, func, args))) == Accept(kind)
       <==> Matches(f, kind) || (OnlyReads(f) && kind.ClientStream?)
  {
    hide FindHandler, CStr, Ascii;
    FindByCStr(registry, func);
  }

  /** The client only reads, the handler of its call only takes input, no end mark has been sent and the server is reading. */
  predicate BothWait(z: Sys) {
    && z.client.phase.Open? && OnlyReads(z.client.phase.form) && !z.srv.out.broken
    && z.client.nextId in z.srv.calls && NotEnded(z, z.client.nextId)
    && var c := z.srv.calls[z.client.nextId];
    && c.kind.ClientStream? && c.phase.Running? && c.emitted == []
    && !z.srv.loop.Closing? && !z.srv.loop.Ended?
  }

  /** Handlers drain their input before they return, no end mark is sent for the call, and the connection stays open. */
  predicate Patient(z: Sys, mv: Move) {
    match mv
    case Stray(m) => m.id == z.client.nextId ==> m.StreamChunk?
    case Serve(a) =>
      && !a.Disconnect?
      && (a.Return? && a.id in z.srv.calls && HasInput(z.srv.calls[a.id].kind) ==> ServerTheorems.HasEnd(z.srv.calls[a.id].taken))
    case _ => true
  }

  predicate PatientRun(z: Sys, moves: seq<Move>)
    requires Run(Matched, z, moves)
    decreases |moves|
  {
    moves == [] || (Patient(z, moves[0]) && PatientRun(Do(z, moves[0]), moves[1..]))
  }

  // ---------------------------------------------------------------------------
  // It lasts
  // ---------------------------------------------------------------------------

  lemma {:induction false} NoEndSent(up: seq<Outgoing>, id: uint64)
    requires forall i :: 0 <= i < |up| && up[i].id == id && Streamy(up[i]) ==> up[i].StreamChunk?
    ensures forall i :: 0 <= i < |ItemsSent(up, id)| ==> ItemsSent(up, id)[i].Chunk?
  {
    if up != [] { NoEndSent(up[..|up| - 1], id); }
  }

  /** The handler has no end mark: none was sent, and the server adds none while it reads. */
  lemma {:induction false} NoEndTaken(registry: seq<Handler>, z: Sys)
    requires Reachable(registry, z) && BothWait(z)
    ensures !ServerTheorems.HasEnd(z.srv.calls[z.client.nextId].taken)
  {
    hide Arrives, ItemsSent, UpOk;
    var id := z.client.nextId;
    ArrivesUp(Matched, registry, z);
    LinkBound(z);
    HandlerReceivesWhatWasSent(Matched, registry, z, id);
    NoEndSent(z.up[..z.consumed], id);
    var t := z.srv.calls[id].taken;
    forall i | 0 <= i < |t| ensures !t[i].item.End? { assert Items(t)[i] == t[i].item; }
  }

  lemma {:induction false} LinkBound(z: Sys)
    requires UpOk(false, z)
    ensures z.consumed <= |z.up|
  {
    hide OrderInv, StreamsAsked, StopInv, Heard;
  }

  /** A running call is only stopped by its own handler. */
  lemma {:induction false} StaysRunning(s: Conn, a: Action, id: uint64)
    requires Enabled(s, a) && !a.Receive? && id in s.calls && s.calls[id].phase.Running?
    requires !(a.Return? && a.id == id) && !Emits(s.calls[id].kind)
    ensures var s' := Next(s, a); id in s'.calls && s'.calls[id].phase.Running? && s'.calls[id].emitted == s.calls[id].emitted && s'.calls[id].kind == s.calls[id].kind
  {
    hide Decode, Fits, CanTransmit, CanRelease, CanAcquire, Outcome, ChunkTrees, FreedByPush, Transmit;
  }

  lemma {:induction false} StaysOpen(s: Conn, a: Action)
    requires Enabled(s, a) && !a.Receive? && !a.Disconnect? && !s.loop.Closing? && !s.loop.Ended?
    ensures !Next(s, a).loop.Closing? && !Next(s, a).loop.Ended?
  {
    hide Decode, Fits, CanTransmit, CanRelease, CanAcquire, Outcome, ChunkTrees, FreedByPush, Transmit;
  }

  lemma {:induction false} RouteStaysOpen(s: Conn, m: Message)
    requires s.loop.Reading?
    ensures !Route(s, m).loop.Closing? && !Route(s, m).loop.Ended?
  {
    hide StrEq, IsStreamFrame, Judge, ItemFor;
  }

  /** Nobody else is left to write, so nothing can break the connection. */
  lemma {:induction false} NothingBreaks(registry: seq<Handler>, z: Sys, a: Action)
    requires Reachable(registry, z) && BothWait(z) && Enabled(z.srv, a)
    ensures !Next(z.srv, a).out.broken
  {
    hide Reachable, Enabled, Next, ReadInv, InFlight, Finished, Unread, Quiet, NotEnded;
    NoneFailed(registry, z);
    if Next(z.srv, a).out.broken {
      LostReply.BreaksOnlyWriting(z.srv, a);
      NotQuiet(z.srv.calls[a.id]);
    }
  }

  lemma {:induction false} ServeWait(registry: seq<Handler>, z: Sys, a: Action)
    requires Reachable(registry, z) && BothWait(z) && Can(z, Serve(a)) && Patient(z, Serve(a))
    ensures BothWait(Do(z, Serve(a)))
  {
    hide Reachable, SysInv, Enabled, Next, Encode, Decode, Received, ServerTheorems.HasEnd, Fits, UpInv;
    NothingBreaks(registry, z, a);
    NoEndTaken(registry, z);
    if a.Receive? {
      ReachableInv(registry, z);
      UpOf(z);
      var m := z.up[z.consumed];
      NextSent(z);
      Delivered(m);
      ReceiveIsRoute(z.srv, a, Received(m));
      RouteStaysOpen(z.srv, Received(m));
      if m.Request? { RouteRequest(z.srv, m); } else { RouteStream(z.srv, m); }
    } else {
      StaysRunning(z.srv, a, z.client.nextId);
      StaysOpen(z.srv, a);
    }
  }

  lemma {:induction false} UpOf(z: Sys)
    requires SysInv(z)
    ensures UpInv(z)
  {
    hide Inv, UpInv, AskedInv, Sync, Cut;
  }

  lemma {:induction false} NothingForTheClient(registry: seq<Handler>, z: Sys)
    requires Reachable(registry, z) && BothWait(z)
    ensures Incoming(z).None?
  {
    hide Reachable, NotEnded, ReadInv, OutputInv, ParseOne, Partial, Fits;
    LostReply.SilentCall(registry, z);
    ReadFacts(registry, z);
    NothingUnreadHere(z);
  }

  lemma {:induction false} NothingUnreadHere(z: Sys)
    requires ReadInv(z) && OutputInv(z.srv.out) && !z.srv.out.broken && z.read == |z.srv.out.log|
    ensures Incoming(z).None?
  {
    hide OutputInv, ParseOne, Partial, Fits;
    NothingUnread(z.srv.out);
  }

  lemma {:induction false} MoveWait(registry: seq<Handler>, z: Sys, mv: Move)
    requires Reachable(registry, z) && BothWait(z) && Allowed(Matched, z, mv) && Patient(z, mv)
    ensures BothWait(Do(z, mv)) && Do(z, mv).client == z.client
  {
    hide Reachable, Mismatched, Incoming, Enabled, Next, Fits, ServerTheorems.HasEnd;
    NothingForTheClient(registry, z);
    if mv.Serve? { ServeWait(registry, z, mv.a); }
  }

  /** While handlers drain, no end mark is sent and the connection stays open, neither side ever moves on. */
  lemma {:induction false} WaitForEachOther(registry: seq<Handler>, z: Sys, moves: seq<Move>)
    requires Reachable(registry, z) && BothWait(z) && Run(Matched, z, moves) && PatientRun(z, moves)
    ensures BothWait(EndOfRun(Matched, z, moves)) && EndOfRun(Matched, z, moves).client == z.client
    decreases |moves|
  {
    hide Reachable, BothWait, Patient, Can, Mismatched, Do;
    if moves != [] {
      MoveWait(registry, z, moves[0]);
      Step(registry, z, moves[0]);
      WaitForEachOther(registry, Do(z, moves[0]), moves[1..]);
    }
  }

  // ---------------------------------------------------------------------------
  // It happens
  // ---------------------------------------------------------------------------

  /** From every state at rest, either reading form on any client-stream function leads there. */
  lemma {:induction false} ReadingFormWaits(registry: seq<Handler>, z: Sys, f: Form, func: bytes, args: seq<Value>) returns (z': Sys)
    requires Reachable(registry, z) && AtRest(z) && z.client.nextId + 1 < TWO_64 && OnlyReads(f)
    requires FindHandler(registry, func) == Some(ClientStream) && Fits(RequestOf(z.client.nextId + 1, f, func, args))
    ensures Reachable(registry, z') && BothWait(z') && z'.client.nextId == z.client.nextId + 1
  {
    hide Reachable, Encode, Decode, Received, StrEq, FindHandler, Judge;
    var id := z.client.nextId + 1;
    var begin, m := Begin(f, func, args), RequestOf(id, f, func, args);
    SameRegistry(registry, z);
    NewId(registry, z);
    NothingSentYet(registry, z);
    Step(registry, z, begin);
    var z1 := Do(z, begin);
    Delivered(m);
    TypeTells(m);
    AcceptedPairs(registry, id, f, func, args, ClientStream);
    var mv := Serve(Receive(Encode(m)));
    assert Can(z1, mv);
    Step(registry, z1, mv);
    z' := Do(z1, mv);
  }

  lemma {:induction false} NothingSentYet(registry: seq<Handler>, z: Sys)
    requires Reachable(registry, z)
    ensures forall i :: 0 <= i < |z.up| ==> z.up[i].id <= z.client.nextId
  {
    hide Arrives, LinkInv, StreamsAsked, StopInv;
    ArrivesUp(Matched, registry, z);
  }
}
