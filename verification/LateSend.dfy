/**
 * That nothing is sent for a call after its end mark is a duty of the client's program. The C
 * client does not enforce it: its sending functions take any stream id (c/src/client.c:213-227,
 * 286-321). One late message is enough to make the server push to a freed queue, although the
 * handler drained its input and the client is in step.
 */
module LateSend {
  import opened Bytes
  import opened Framing
  import opened Mpack
  import opened Message
  import opened MessageRoundTrip
  import opened StreamInput
  import opened WriteLock
  import opened Server
  import opened ServerInv
  import opened System
  import opened SystemSteps
  import opened SystemTheorems
  import opened Uplink
  import opened Completion
  import ServerTheorems
  import PushSafety
  import PushRace

  /** The message arrives while its call is still registered: its queue is found. */
  lemma {:induction false} StrayArrives(registry: seq<Handler>, z: Sys, phase: ClientPhase, kind: Kind) returns (z': Sys)
    requires Reachable(registry, z) && Busy(z, phase, kind) && HasInput(kind) && z.client.nextId in z.asked
    ensures Reachable(registry, z') && z'.client == z.client
    ensures z'.srv == z.srv.(loop := z'.srv.loop, input := z'.srv.input) && z'.srv.loop.Found? && z'.srv.loop.id == z.client.nextId
  {
    hide Reachable, Encode, Decode, Received, StrEq, IsStreamFrame, ItemFor, Incoming;
    var m := StreamEnd(z.client.nextId);
    ClosesFit(m.id);
    Step(registry, z, Stray(m));
    var z1 := Do(z, Stray(m));
    Delivered(m);
    SentItem(m);
    TypeTells(m);
    var receive := Serve(Receive(Encode(m)));
    assert Can(z1, receive);
    Step(registry, z1, receive);
    z' := Do(z1, receive);
  }

  /** The handler returns an error, its thread sends it and cleans up, while the loop is about to push. */
  lemma {:induction false} ThreadEnds(registry: seq<Handler>, z: Sys, id: uint64) returns (z': Sys)
    requires Reachable(registry, z) && z.srv.loop.Found? && z.srv.out.hold.None? && id in z.srv.calls
    requires HasInput(z.srv.calls[id].kind) && z.srv.calls[id].phase.Running?
    ensures Reachable(registry, z') && z'.srv.loop == z.srv.loop && id !in z'.srv.queues
    ensures id in z'.srv.calls && z'.srv.calls[id].taken == z.srv.calls[id].taken
  {
    hide Reachable, Fits, Ascii;
    var m := Outcome(id, z.srv.calls[id].kind, false, Null);
    SmallFits(id, Ascii("Error"), Ascii("handler returned an error"));
    assert Terminal(m);
    hide Outcome;
    var z1 := TakesLock(registry, z, id, false, Null);
    var z2 := SendsFrame(registry, z1, id, m);
    z' := CleansUp(registry, z2, id);
  }

  /**
   * From every state at rest, on every client-stream function: the client opens a stream,
   * closes it, and sends once more for it; the handler drains its input and returns; and the
   * server stands before a push to the freed queue.
   */
  lemma {:induction false} LateSendRaces(registry: seq<Handler>, z: Sys, func: bytes) returns (z': Sys)
    requires Reachable(registry, z) && AtRest(z) && z.client.nextId + 1 < TWO_64
    requires FindHandler(registry, func) == Some(ClientStream) && Fits(RequestOf(z.client.nextId + 1, Export, func, []))
    ensures Reachable(registry, z') && PushRace.Dangling(z'.srv)
    ensures z'.srv.loop.Found? && PushSafety.Drains(z'.srv, z'.srv.loop.id)
  {
    hide Reachable, Fits, FindHandler, PushRace.Dangling;
    var id := z.client.nextId + 1;
    var z1 := Opens(registry, z, Export, func, [], ClientStream);
    var z2 := SendsClose(registry, z1, Export, ClientStream);
    CallIsAsked(registry, z2, id);
    var z3 := StrayArrives(registry, z2, Open(Export, true), ClientStream);
    z' := ThreadEnds(registry, z3, id);
    PushRace.NoQueueNoPush(z'.srv);
    assert Items(z2.srv.calls[id].taken) == [End];
    assert Items(z2.srv.calls[id].taken)[0] == z2.srv.calls[id].taken[0].item;
  }
}
