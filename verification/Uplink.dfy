/**
 * From the client to the handler: what the server has read is what the client has sent, so a
 * handler with stream input receives exactly the items the client sent for its call; and a
 * client program that sends nothing for a call after an end mark is a peer that stops. The C
 * client does not see to that: its sending functions take any stream id at any time.
 */
module Uplink {
  import opened Bytes
  import opened Framing
  import opened Mpack
  import opened Message
  import opened MessageRoundTrip
  import opened StreamInput
  import opened WriteLock
  import opened Server
  import opened ServerInv
  import opened ServerTheorems
  import opened PushSafety
  import opened System
  import opened SystemSteps

  predicate SameStream(a: Outgoing, b: Outgoing) {
    Streamy(a) && Streamy(b) && a.id == b.id
  }

  // ---------------------------------------------------------------------------
  // The invariant
  // ---------------------------------------------------------------------------

  /** What the server has read is what the client has sent, up to where it has read. */
  predicate LinkInv(z: Sys) {
    && z.consumed <= |z.up|
    && AllFit(z.up)
    && z.srv.input == Heard(z.up[..z.consumed])
  }

  /** Ids only grow, and a request is the first message with its id. */
  predicate OrderInv(z: Sys) {
    && (forall i :: 0 <= i < |z.up| ==> z.up[i].id <= z.client.nextId)
    && (forall i, j :: 0 <= i < j < |z.up| && z.up[j].Request? ==> z.up[i].id < z.up[j].id)
    && (forall id :: id in z.asked ==> id <= z.client.nextId && z.asked[id].Request?)
  }

  /** Stream messages are for calls that were begun. */
  predicate StreamsAsked(z: Sys) {
    && (forall i :: 0 <= i < |z.up| && Streamy(z.up[i]) ==> z.up[i].id in z.asked)
    && (z.client.phase.Open? ==> z.client.nextId in z.asked)
  }

  /** Nothing follows an end mark. */
  predicate StopInv(z: Sys) {
    forall i, j :: 0 <= i < j < |z.up| && SameStream(z.up[i], z.up[j]) ==> z.up[i].StreamChunk?
  }

  predicate UpOk(orderly: bool, z: Sys) {
    LinkInv(z) && OrderInv(z) && StreamsAsked(z) && (orderly ==> StopInv(z))
  }

  // ---------------------------------------------------------------------------
  // Every move keeps it
  // ---------------------------------------------------------------------------

  lemma {:induction false} HeardMore(up: seq<Outgoing>, n: nat)
    requires n < |up|
    ensures Heard(up[..n + 1]) == Heard(up[..n]) + [Received(up[n])]
  {
    hide Received;
    assert up[..n + 1] == up[..n] + [up[n]];
    HeardAppend(up[..n], up[n]);
  }

  lemma {:induction false} RouteInput(s: Conn, m: Message)
    ensures Route(s, m).input == s.input + [m]
  {
    hide IsStreamFrame, StrEq, Judge, ItemFor;
  }

  lemma {:induction false} ServeUp(orderly: bool, z: Sys, a: Action)
    requires UpOk(orderly, z) && Can(z, Serve(a))
    ensures UpOk(orderly, Do(z, Serve(a)))
  {
    hide Fits, Enabled, Next, Decode, Encode, Received, Heard, OrderInv, StopInv, StreamsAsked;
    var z' := Do(z, Serve(a));
    if a.Receive? {
      var m := z.up[z.consumed];
      Delivered(m);
      ReceiveIsRoute(z.srv, a, Received(m));
      RouteInput(z.srv, Received(m));
      HeardMore(z.up, z.consumed);
    } else {
      InputStays(z.srv, a);
    }
    SameClient(z, z');
  }

  lemma {:induction false} SameClient(z: Sys, z': Sys)
    requires OrderInv(z) && StreamsAsked(z) && z'.client == z.client && z'.up == z.up && z'.asked == z.asked
    ensures OrderInv(z') && StreamsAsked(z') && (StopInv(z) ==> StopInv(z'))
  {
  }

  lemma {:induction false} ReadUp(orderly: bool, z: Sys)
    requires UpOk(orderly, z)
    ensures Can(z, Read) ==> UpOk(orderly, DoRead(z))
    ensures Can(z, ReadFails) ==> UpOk(orderly, DoReadFails(z))
  {
    hide Fits, Incoming, Enabled, Decode, StrEq, Heard;
  }

  lemma {:induction false} LinkAppend(z: Sys, z': Sys, m: Outgoing)
    requires LinkInv(z) && Fits(m) && z'.up == z.up + [m] && z'.consumed == z.consumed && z'.srv == z.srv
    ensures LinkInv(z')
  {
    hide Fits, Heard;
    assert z'.up[..z.consumed] == z.up[..z.consumed];
  }

  lemma {:induction false} BeginOrder(z: Sys, z': Sys, m: Outgoing)
    requires OrderInv(z) && m.Request? && m.id == z.client.nextId + 1 && z'.client.nextId == m.id
    requires (z'.up == z.up + [m] && z'.asked == z.asked[m.id := m]) || (z'.up == z.up && z'.asked == z.asked)
    ensures OrderInv(z')
  {
    assert forall i :: 0 <= i < |z.up| ==> z'.up[i] == z.up[i];
  }

  lemma {:induction false} BeginStop(z: Sys, z': Sys, m: Outgoing)
    requires m.Request? && z'.up == z.up + [m] && z'.asked == z.asked[m.id := m] && z'.client.nextId == m.id
    ensures StreamsAsked(z) ==> StreamsAsked(z')
    ensures StopInv(z) ==> StopInv(z')
  {
    assert forall i :: 0 <= i < |z.up| ==> z'.up[i] == z.up[i];
    assert !Streamy(m);
  }

  lemma {:induction false} BeginUp(orderly: bool, z: Sys, f: Form, func: bytes, args: seq<Value>)
    requires UpOk(orderly, z) && Can(z, Begin(f, func, args))
    ensures UpOk(orderly, DoBegin(z, f, func, args))
  {
    hide Fits, Incoming, Enabled, LinkInv, OrderInv, StopInv;
    var z', m := DoBegin(z, f, func, args), RequestOf(z.client.nextId + 1, f, func, args);
    BeginOrder(z, z', m);
    if Fits(m) {
      LinkAppend(z, z', m);
      BeginStop(z, z', m);
      hide StreamsAsked;
    } else {
      LinkSame(z, z');
    }
  }

  lemma {:induction false} LinkSame(z: Sys, z': Sys)
    requires LinkInv(z) && z'.up == z.up && z'.consumed == z.consumed && z'.srv == z.srv
    ensures LinkInv(z') && (StopInv(z) ==> StopInv(z'))
  {
  }

  lemma {:induction false} SendOrder(z: Sys, z': Sys, m: Outgoing)
    requires OrderInv(z) && StreamsAsked(z) && Streamy(m) && m.id in z.asked && z'.client.nextId == z.client.nextId
    requires z'.up == z.up + [m] && z'.asked == z.asked && (z'.client.phase.Open? ==> z.client.phase.Open?)
    ensures OrderInv(z') && StreamsAsked(z')
  {
    assert forall i :: 0 <= i < |z.up| ==> z'.up[i] == z.up[i];
  }

  lemma {:induction false} SendStop(z: Sys, z': Sys, m: Outgoing)
    requires StopInv(z) && NotEnded(z, m.id) && z'.up == z.up + [m]
    ensures StopInv(z')
  {
    assert forall i :: 0 <= i < |z.up| ==> z'.up[i] == z.up[i];
  }

  lemma {:induction false} SendUp(care: Care, z: Sys, mv: Move)
    requires UpOk(care.Orderly?, z) && Allowed(care, z, mv) && IsSend(mv)
    ensures UpOk(care.Orderly?, Do(z, mv))
  {
    hide Fits, Incoming, Enabled, LinkInv, Mismatched, OrderInv, StopInv, NotEnded;
    var z', id := Do(z, mv), z.client.nextId;
    var m := match mv
      case SendChunk(v) => StreamChunk(id, v)
      case SendClose => CloseOf(id, z.client.phase.form)
      case Stray(x) => x;
    ClosesFit(id);
    LinkAppend(z, z', m);
    SendOrder(z, z', m);
    if care.Orderly? { SendStop(z, z', m); }
  }

  lemma {:induction false} MoveUp(care: Care, z: Sys, mv: Move)
    requires UpOk(care.Orderly?, z) && Allowed(care, z, mv)
    ensures UpOk(care.Orderly?, Do(z, mv))
  {
    hide UpOk, DoBegin, DoRead, DoReadFails, DoSendClose, Mismatched, Incoming, Enabled, Fits, Next, NotEnded;
    match mv
    case Begin(f, func, args) => BeginUp(care.Orderly?, z, f, func, args);
    case SendChunk(_) => SendUp(care, z, mv);
    case SendClose => SendUp(care, z, mv);
    case Stray(_) => SendUp(care, z, mv);
    case Read => ReadUp(care.Orderly?, z);
    case ReadFails => ReadUp(care.Orderly?, z);
    case Serve(a) => ServeUp(care.Orderly?, z, a);
  }

  lemma {:induction false} RunUp(care: Care, z: Sys, moves: seq<Move>)
    requires UpOk(care.Orderly?, z) && Run(care, z, moves)
    ensures UpOk(care.Orderly?, EndOfRun(care, z, moves))
    decreases |moves|
  {
    hide UpOk, Can, Mismatched, Do;
    if moves != [] {
      MoveUp(care, z, moves[0]);
      RunUp(care, Do(z, moves[0]), moves[1..]);
    }
  }

  lemma {:induction false} ArrivesUp(care: Care, registry: seq<Handler>, z: Sys)
    requires Arrives(care, registry, z)
    ensures UpOk(care.Orderly?, z)
  {
    hide UpOk, Run, EndOfRun;
    var moves :| Run(care, InitialSystem(registry), moves) && EndOfRun(care, InitialSystem(registry), moves) == z;
    UpAtStart(care.Orderly?, registry);
    RunUp(care, InitialSystem(registry), moves);
  }

  lemma {:induction false} UpAtStart(orderly: bool, registry: seq<Handler>)
    ensures UpOk(orderly, InitialSystem(registry))
  {
    assert Heard([]) == [];
  }

  // ---------------------------------------------------------------------------
  // The server's part of a run of the system is a run of the server
  // ---------------------------------------------------------------------------

  lemma {:induction false} RunServes(care: Care, registry: seq<Handler>, z: Sys, moves: seq<Move>)
    requires Reachable(registry, z.srv) && Run(care, z, moves)
    ensures Reachable(registry, EndOfRun(care, z, moves).srv)
    decreases |moves|
  {
    hide Reachable, Enabled, Next, Incoming, Fits, Mismatched;
    if moves != [] {
      var mv := moves[0];
      if mv.Serve? { Goes(registry, z.srv, mv.a); }
      assert Reachable(registry, Do(z, mv).srv);
      hide Do;
      RunServes(care, registry, Do(z, mv), moves[1..]);
    }
  }

  /** Every theorem about the server's runs holds of the server in a system, whatever the client does. */
  lemma {:induction false} ServerOfSystem(care: Care, registry: seq<Handler>, z: Sys)
    requires Exported(registry) && Arrives(care, registry, z)
    ensures Reachable(registry, z.srv)
  {
    hide Reachable, Run, EndOfRun;
    FreshIsReachable(registry);
    var moves :| Run(care, InitialSystem(registry), moves) && EndOfRun(care, InitialSystem(registry), moves) == z;
    RunServes(care, registry, InitialSystem(registry), moves);
  }

  // ---------------------------------------------------------------------------
  // The client ends a stream once
  // ---------------------------------------------------------------------------

  lemma {:induction false} SentItem(m: Outgoing)
    ensures IsStreamFrame(Received(m)) <==> Streamy(m)
    ensures Received(m).id == m.id
    ensures Streamy(m) ==> ItemFor(Received(m)) == ItemSent(m)
  {
    TypeTells(m);
    hide StrEq;
  }

  /** A client program that sends nothing for a call after its end mark is a peer that stops, for every call. */
  lemma {:induction false} ClientStops(registry: seq<Handler>, z: Sys, id: uint64)
    requires Arrives(Orderly, registry, z)
    ensures PeerStops(z.srv, id)
  {
    hide Arrives, Received, IsStreamFrame, ItemFor, Fits, StreamsAsked, OrderInv;
    ArrivesUp(Orderly, registry, z);
    var input := z.srv.input;
    forall i, j | 0 <= i < j < |input| && IsStreamFrame(input[i]) && IsStreamFrame(input[j]) && input[i].id == id && input[j].id == id
      ensures !ItemFor(input[i]).End?
    {
      assert input[i] == Received(z.up[i]) && input[j] == Received(z.up[j]);
      SentItem(z.up[i]);
      SentItem(z.up[j]);
    }
  }

  /** With such a program and a handler that drains its input, no push of the server is to a freed queue. */
  lemma {:induction false} PushesAreSafe(registry: seq<Handler>, z: Sys)
    requires Exported(registry) && Arrives(Orderly, registry, z) && z.srv.loop.Found? && Drains(z.srv, z.srv.loop.id)
    ensures Enabled(z.srv, Push)
  {
    hide Arrives, Reachable, PeerStops, Drains, Enabled;
    ServerOfSystem(Orderly, registry, z);
    ClientStops(registry, z, z.srv.loop.id);
    FoundQueueIsThere(registry, z.srv);
  }

  // ---------------------------------------------------------------------------
  // What the handler receives is what the client sent
  // ---------------------------------------------------------------------------

  function ItemSent(m: Outgoing): Item {
    if m.StreamChunk? then Chunk(m.result) else End
  }

  /** The items the client sent for a call, in order. */
  function ItemsSent(up: seq<Outgoing>, id: uint64): seq<Item> {
    if up == [] then []
    else
      var m := up[|up| - 1];
      ItemsSent(up[..|up| - 1], id) + if Streamy(m) && m.id == id then [ItemSent(m)] else []
  }

  lemma {:induction false} CellsFromStart(id: uint64, input: seq<Message>, from: nat)
    requires forall n :: 0 <= n < from && n < |input| ==> !(IsStreamFrame(input[n]) && input[n].id == id)
    ensures CellsFor(id, input, from) == CellsFor(id, input, 0)
    decreases |input|
  {
    hide IsStreamFrame, ItemFor;
    if input != [] {
      CellsFromStart(id, input[..|input| - 1], from);
      if |input| <= from {
        NoCells(id, input);
      }
    }
  }

  lemma {:induction false} NoCells(id: uint64, input: seq<Message>)
    requires forall n :: 0 <= n < |input| ==> !(IsStreamFrame(input[n]) && input[n].id == id)
    ensures CellsFor(id, input, 0) == []
  {
    hide IsStreamFrame, ItemFor;
    if input != [] { NoCells(id, input[..|input| - 1]); }
  }

  lemma {:induction false} CellsAreSent(id: uint64, up: seq<Outgoing>)
    ensures Items(CellsFor(id, Heard(up), 0)) == ItemsSent(up, id)
    decreases |up|
  {
    hide IsStreamFrame, ItemFor, Received;
    if up != [] {
      var front, m := up[..|up| - 1], up[|up| - 1];
      CellsAreSent(id, front);
      SentItem(m);
      HeardMore(up, |up| - 1);
      assert up[..|up|] == up;
      CellsForAppend(id, Heard(front), Received(m), 0);
    }
  }

  /** The call's own request is the first message with its id. */
  lemma {:induction false} NothingBefore(z: Sys, id: uint64)
    requires LinkInv(z) && OrderInv(z) && id in z.srv.calls && Flow(z.srv, id)
    ensures CellsFor(id, z.srv.input, z.srv.calls[id].src + 1) == CellsFor(id, z.srv.input, 0)
  {
    hide Fits, IsStreamFrame, Received, Routed, Pending, StrEq;
    var src, input := z.srv.calls[id].src, z.srv.input;
    assert input[src] == Received(z.up[src]);
    SentItem(z.up[src]);
    TypeTells(z.up[src]);
    forall n | 0 <= n < src + 1 && n < |input| ensures !(IsStreamFrame(input[n]) && input[n].id == id) {
      assert input[n] == Received(z.up[n]);
      SentItem(z.up[n]);
    }
    CellsFromStart(id, input, src + 1);
  }

  /**
   * End to end: what a call's handler has received, then what is queued, then what is about to
   * be pushed, are exactly the items the client sent for that call and the server has read, in
   * order, followed by an end mark if the connection is closing.
   */
  lemma {:induction false} HandlerReceivesWhatWasSent(care: Care, registry: seq<Handler>, z: Sys, id: uint64)
    requires Exported(registry) && Arrives(care, registry, z) && id in z.srv.calls && z.consumed <= |z.up|
    ensures var closing := if Closed(z.srv, id) then [End] else [];
            var sent := ItemsSent(z.up[..z.consumed], id) + closing;
            && Items(z.srv.calls[id].taken) <= sent
            && (id in z.srv.queues ==>
                  Items(z.srv.calls[id].taken) + Items(z.srv.queues[id]) + Items(Pending(z.srv, id)) == sent)
  {
    hide Arrives, Reachable, Inv, OrderInv, StopInv, StreamsAsked, CellsFor, Received, Flow, Fits;
    ArrivesUp(care, registry, z);
    ServerOfSystem(care, registry, z);
    InputConserved(registry, z.srv, id);
    ReachableFlow(registry, z.srv, id);
    NothingBefore(z, id);
    CellsAreSent(id, z.up[..z.consumed]);
    var s := z.srv;
    assert Items(Routed(s, id)) == ItemsSent(z.up[..z.consumed], id) + if Closed(s, id) then [End] else [];
    if id in s.queues {
      assert Items(s.calls[id].taken + s.queues[id] + Pending(s, id)) == Items(s.calls[id].taken) + Items(s.queues[id]) + Items(Pending(s, id));
    }
  }

  lemma {:induction false} ReachableFlow(registry: seq<Handler>, s: Conn, id: uint64)
    requires Reachable(registry, s) && id in s.calls
    ensures Flow(s, id)
  {
    hide Reachable, OutputInv, LockInv, LogInv, ShapeInv, QueueInv, LoopInv, Flow;
    ReachableInv(registry, s);
  }
}
