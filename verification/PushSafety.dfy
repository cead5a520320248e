/**
 * The read loop looks a queue up and pushes to it in two separate critical sections
 * (c/src/server.c:606-616). Between them the call's own thread may remove the queue; module
 * `PushRace` has the runs. It does not happen to a call whose handler drains its input before
 * returning and whose peer sends nothing for a stream it has ended.
 */
module PushSafety {
  import opened Bytes
  import opened Mpack
  import opened Message
  import opened StreamInput
  import opened WriteLock
  import opened Server
  import opened ServerInv
  import opened ServerSteps
  import opened ServerTheorems

  /** Each routed item records the stream frame it came from, in increasing order. */
  lemma {:induction false} CellsAre(id: uint64, input: seq<Message>, from: nat, k: nat)
    requires k < |CellsFor(id, input, from)|
    ensures var c := CellsFor(id, input, from)[k];
            && from <= c.src < |input|
            && IsStreamFrame(input[c.src]) && input[c.src].id == id
            && c.item == ItemFor(input[c.src])
  {
    hide IsStreamFrame, ItemFor;
    if |input| > from {
      var n := |input| - 1;
      if k < |CellsFor(id, input[..n], from)| {
        CellsAre(id, input[..n], from, k);
      }
    }
  }

  lemma {:induction false} CellsIncrease(id: uint64, input: seq<Message>, from: nat, j: nat, k: nat)
    requires j < k < |CellsFor(id, input, from)|
    ensures CellsFor(id, input, from)[j].src < CellsFor(id, input, from)[k].src
  {
    hide IsStreamFrame, ItemFor;
    var n := |input| - 1;
    if k < |CellsFor(id, input[..n], from)| {
      CellsIncrease(id, input[..n], from, j, k);
    } else {
      CellsAre(id, input[..n], from, j);
    }
  }

  /** Everything addressed to the call before the message the read loop is holding. */
  function Before(s: Conn, id: uint64): seq<Cell>
    requires id in s.calls && s.input != []
  {
    CellsFor(id, s.input[..|s.input| - 1], s.calls[id].src + 1)
  }

  /** The handler has received none of what the read loop has found a queue for but not pushed yet. */
  predicate RaceInv(s: Conn) {
    s.loop.Found? ==>
      && s.input != []
      && s.loop.id in s.calls
      && HasInput(s.calls[s.loop.id].kind)
      && s.calls[s.loop.id].taken <= Before(s, s.loop.id)
  }

  /** While a message is held, received and queued items are exactly what came before it. */
  lemma {:induction false} QueuedBefore(s: Conn, id0: uint64)
    requires LoopInv(s) && s.loop.Found? && s.loop.id == id0 && id0 in s.calls && id0 in s.queues && Flow(s, id0)
    ensures s.input != [] && s.calls[id0].taken + s.queues[id0] == Before(s, id0)
  {
    hide CellsFor, StrEq, IsStreamFrame, ItemFor;
    var t, q, n := s.calls[id0].taken, s.queues[id0], |s.input| - 1;
    NotTheRequest(s, id0);
    assert s.input == s.input[..n] + [s.input[n]];
    CellsForAppend(id0, s.input[..n], s.input[n], s.calls[id0].src + 1);
    assert t + q + [s.loop.cell] == Before(s, id0) + [s.loop.cell];
    assert t + q == (t + q + [s.loop.cell])[..|t| + |q|] == Before(s, id0);
  }

  lemma {:induction false} RecvRace(s: Conn, id0: uint64)
    requires Inv(s) && RaceInv(s) && Enabled(s, Recv(id0))
    ensures RaceInv(DoRecv(s, id0))
  {
    hide OutputInv, LockInv, LogInv, ShapeInv, LoopInv, Flow, CellsFor, Fits, CanTransmit, CanRelease, CanAcquire, Decode;
    if s.loop.Found? && s.loop.id == id0 {
      QueuedBefore(s, id0);
      var t, q := s.calls[id0].taken, s.queues[id0];
      assert t + [q[0]] <= t + q;
    }
  }

  /** The message being routed is not the request that opened the call. */
  lemma {:induction false} NotTheRequest(s: Conn, id: uint64)
    requires LoopInv(s) && s.loop.Found? && id in s.calls && Flow(s, id)
    ensures s.calls[id].src + 1 < |s.input|
  {
    hide CellsFor, CStr;
  }

  lemma {:induction false} RouteRace(s: Conn, m: Message)
    requires Inv(s) && s.loop.Reading?
    ensures RaceInv(Route(s, m))
  {
    hide OutputInv, LockInv, LogInv, ShapeInv, LoopInv, CellsFor, IsStreamFrame, ItemFor, StrEq, Judge;
    var s' := Route(s, m);
    if s'.loop.Found? {
      var id := s'.loop.id;
      assert Flow(s, id);
      assert s'.input[..|s'.input| - 1] == s.input;
      var t, q := s.calls[id].taken, s.queues[id];
      assert Routed(s, id) == CellsFor(id, s.input, s.calls[id].src + 1) + [];
      assert t <= CellsFor(id, s.input, s.calls[id].src + 1);
    }
  }

  lemma {:induction false} SameTaken(s: Conn, s': Conn)
    requires RaceInv(s) && s'.input == s.input && (s'.loop == s.loop || !s'.loop.Found?)
    requires forall id :: id in s.calls ==>
      id in s'.calls && s'.calls[id].taken == s.calls[id].taken && s'.calls[id].kind == s.calls[id].kind
      && s'.calls[id].src == s.calls[id].src
    ensures RaceInv(s')
  {
    hide CellsFor;
  }

  lemma {:induction false} OtherRace(s: Conn, a: Action)
    requires RaceInv(s) && Enabled(s, a) && !a.Receive? && !a.Recv?
    ensures RaceInv(Next(s, a))
  {
    hide RaceInv, Decode, Fits, CanTransmit, CanRelease, CanAcquire, Transmit, Completes, Outcome, ChunkTrees, FreedByPush;
    SameTaken(s, Next(s, a));
  }

  lemma {:induction false} StepRace(s: Conn, a: Action)
    requires Inv(s) && RaceInv(s) && Enabled(s, a)
    ensures RaceInv(Next(s, a))
  {
    hide Inv, RaceInv, Decode, Route, Fits, CanTransmit, CanRelease, CanAcquire, DoPush, DoCloseOne, DoResume, DoReturn, DoSend, DoRemove;
    match a
    case Receive(p) => if Decode(p).Some? { RouteRace(s, Decode(p).value); }
    case Recv(id) => RecvRace(s, id);
    case _ => OtherRace(s, a);
  }

  lemma {:induction false} RunRace(s: Conn, actions: seq<Action>)
    requires Inv(s) && RaceInv(s) && Possible(s, actions)
    ensures RaceInv(Server.After(s, actions))
    decreases |actions|
  {
    hide Inv, Enabled, Next, RaceInv;
    if actions != [] {
      StepKeeps(s, actions[0]);
      StepRace(s, actions[0]);
      RunRace(Next(s, actions[0]), actions[1..]);
    }
  }

  /** The call's handler had received an end mark before it returned. */
  predicate Drains(s: Conn, id: uint64) {
    id in s.calls && HasInput(s.calls[id].kind) && !s.calls[id].phase.Running? ==> HasEnd(s.calls[id].taken)
  }

  /** The peer has sent no stream frame for the id after ending that id's stream. */
  predicate PeerStops(s: Conn, id: uint64) {
    forall i, j ::
      0 <= i < j < |s.input| && IsStreamFrame(s.input[i]) && IsStreamFrame(s.input[j]) && s.input[i].id == id && s.input[j].id == id ==>
        !ItemFor(s.input[i]).End?
  }

  lemma {:induction false} NoRaceAtStart(registry: seq<Handler>)
    ensures RaceInv(Init(registry))
  {
  }

  lemma {:induction false} ReachableRace(registry: seq<Handler>, s: Conn)
    requires Reachable(registry, s)
    ensures Inv(s) && RaceInv(s)
  {
    hide Inv, Possible, RaceInv;
    ReachableInv(registry, s);
    var actions :| Possible(Init(registry), actions) && Server.After(Init(registry), actions) == s;
    InitInv(registry);
    NoRaceAtStart(registry);
    RunRace(Init(registry), actions);
  }

  /** Between lookup and push the queue is there exactly as long as the call's thread has not cleaned up. */
  lemma {:induction false} PushIsSafeIff(registry: seq<Handler>, s: Conn)
    requires Reachable(registry, s) && s.loop.Found?
    ensures s.loop.id in s.calls
    ensures Enabled(s, Push) <==> !s.calls[s.loop.id].phase.Done?
  {
    hide Inv, Reachable, RaceInv, Enabled;
    ReachableRace(registry, s);
    PushWhileRunning(s);
  }

  lemma {:induction false} PushWhileRunning(s: Conn)
    requires Inv(s) && RaceInv(s) && s.loop.Found?
    ensures s.loop.id in s.calls && (Enabled(s, Push) <==> !s.calls[s.loop.id].phase.Done?)
  {
    hide OutputInv, LockInv, LogInv, ShapeInv, FlowInv, LoopInv, Before, Decode, Fits, CanTransmit, CanRelease, CanAcquire;
  }

  /**
   * The queue that was found is still registered when the push happens, if the call's handler
   * drains its input before it returns and the peer sends nothing more after ending the stream.
   */
  lemma {:induction false} FoundQueueIsThere(registry: seq<Handler>, s: Conn)
    requires Reachable(registry, s) && s.loop.Found? && Drains(s, s.loop.id) && PeerStops(s, s.loop.id)
    ensures Enabled(s, Push)
  {
    hide Inv, Reachable, Drains, PeerStops, RaceInv, Enabled;
    ReachableRace(registry, s);
    StillRegistered(s);
  }

  lemma {:induction false} StillRegistered(s: Conn)
    requires Inv(s) && RaceInv(s) && s.loop.Found? && Drains(s, s.loop.id) && PeerStops(s, s.loop.id)
    ensures Enabled(s, Push)
  {
    hide OutputInv, LockInv, LogInv, ShapeInv, FlowInv, CellsFor, IsStreamFrame, ItemFor, Decode, Fits, CanTransmit, CanRelease, CanAcquire;
    var id, n := s.loop.id, |s.input| - 1;
    if id !in s.queues {
      var t := s.calls[id].taken;
      assert HasEnd(t);
      var j :| 0 <= j < |t| && t[j].item.End?;
      assert t[j] == Before(s, id)[j];
      CellsAre(id, s.input[..n], s.calls[id].src + 1, j);
    }
  }
}
