/** The protocol engine's guarantees, over every run from a fresh connection. */
module ServerTheorems {
  import opened Bytes
  import opened Framing
  import opened Mpack
  import opened Message
  import opened StreamInput
  import opened WriteLock
  import opened Server
  import opened ServerInv
  import opened ServerSteps

  /** Some interleaving of the read loop and the handler threads leads from a fresh connection to `s`. */
  ghost predicate Reachable(registry: seq<Handler>, s: Conn) {
    && Exported(registry)
    && exists actions :: Possible(Init(registry), actions) && Server.After(Init(registry), actions) == s
  }

  lemma {:induction false} ReachableInv(registry: seq<Handler>, s: Conn)
    requires Reachable(registry, s)
    ensures Inv(s)
  {
    hide Inv, Possible;
    var actions :| Possible(Init(registry), actions) && Server.After(Init(registry), actions) == s;
    InitInv(registry);
    RunKeeps(Init(registry), actions);
  }

  lemma {:induction false} RunOn(s: Conn, actions: seq<Action>, a: Action)
    requires Possible(s, actions) && Enabled(Server.After(s, actions), a)
    ensures Possible(s, actions + [a]) && Server.After(s, actions + [a]) == Next(Server.After(s, actions), a)
    decreases |actions|
  {
    hide Enabled, Next;
    var all := actions + [a];
    if actions == [] {
      assert all[0] == a && all[1..] == [];
    } else {
      assert all[0] == actions[0] && all[1..] == actions[1..] + [a];
      RunOn(Next(s, actions[0]), actions[1..], a);
    }
  }

  /** A reachable state with an enabled action leads to a reachable state. */
  lemma {:induction false} Goes(registry: seq<Handler>, s: Conn, a: Action)
    requires Reachable(registry, s) && Enabled(s, a)
    ensures Reachable(registry, Next(s, a))
  {
    hide Enabled, Next, Possible, Server.After, Exported;
    var actions :| Possible(Init(registry), actions) && Server.After(Init(registry), actions) == s;
    RunOn(Init(registry), actions, a);
  }

  lemma {:induction false} FreshIsReachable(registry: seq<Handler>)
    requires Exported(registry)
    ensures Reachable(registry, Init(registry))
  {
    assert Possible(Init(registry), []);
  }

  // ---------------------------------------------------------------------------
  // Frame grammar per request
  // ---------------------------------------------------------------------------

  /** `stream_chunk* terminal?`, every message under the request's id. */
  predicate Word(id: uint64, ms: seq<Outgoing>) {
    && (forall i :: 0 <= i < |ms| ==> ms[i].id == id && (ms[i].StreamChunk? || Terminal(ms[i])))
    && (forall i :: 0 <= i < |ms| - 1 ==> ms[i].StreamChunk?)
  }

  /** Chunks and `stream_end` only from streaming kinds, `response` only from the others. */
  predicate Speech(kind: Kind, m: Outgoing) {
    && (m.StreamChunk? || m.StreamEnd? ==> Emits(kind))
    && (m.Response? ==> kind.Unary? || kind.ClientStream?)
  }

  predicate Over(c: Call) {
    c.phase.Cleanup? || c.phase.Done?
  }

  predicate EndsWith(ms: seq<Outgoing>, m: Outgoing) {
    ms != [] && ms[|ms| - 1] == m
  }

  lemma {:induction false} WordOfShape(id: uint64, c: Call, broken: bool)
    requires Shape(id, c, broken)
    ensures Word(id, c.emitted)
    ensures forall i :: 0 <= i < |c.emitted| ==> Speech(c.kind, c.emitted[i])
  {
    hide Fits;
    var e := c.emitted;
    forall i | 0 <= i < |e| - 1 ensures e[i].StreamChunk? && e[i].id == id {
      if !Chunky(id, e) { assert e[i] == e[..|e| - 1][i]; }
    }
    forall i | 0 <= i < |e| ensures Speech(c.kind, e[i]) && e[i].id == id && (e[i].StreamChunk? || Terminal(e[i])) {
      if i < |e| - 1 { assert e[i].StreamChunk?; }
    }
  }

  lemma {:induction false} EndOfShape(id: uint64, c: Call, broken: bool)
    requires Shape(id, c, broken)
    ensures c.phase.Running? ==> Chunky(id, c.emitted)
    ensures Over(c) ==> c.outcome.Some? && Terminal(c.outcome.value) && (!Fits(c.outcome.value) ==> c.outcome.value.Response?)
    ensures Over(c) && !broken ==> (EndsWith(c.emitted, c.outcome.value) <==> Fits(c.outcome.value))
    ensures Over(c) && !broken && !Fits(c.outcome.value) ==> Chunky(id, c.emitted)
  {
    hide Fits;
  }

  /**
   * On every run, the frames carrying one request's id form a prefix of `stream_chunk* terminal`,
   * with the messages its kind allows. Once its handler has ended and no send has failed, the
   * terminal is there exactly when the outcome fits a frame; only a response can fail to fit.
   */
  lemma {:induction false} FrameGrammar(registry: seq<Handler>, s: Conn, id: uint64)
    requires Reachable(registry, s) && id in s.calls
    ensures var c, ms := s.calls[id], FramesOf(s.out.log, id);
            && Word(id, ms)
            && (forall i :: 0 <= i < |ms| ==> Speech(c.kind, ms[i]))
            && (Over(c) ==> c.outcome.Some? && Terminal(c.outcome.value))
            && (Over(c) && !Fits(c.outcome.value) ==> c.outcome.value.Response?)
            && (Over(c) && !s.out.broken ==> (EndsWith(ms, c.outcome.value) <==> Fits(c.outcome.value)))
            && (Over(c) && !s.out.broken && !Fits(c.outcome.value) ==> Chunky(id, ms))
            && (c.phase.Running? ==> Chunky(id, ms))
  {
    ReachableInv(registry, s);
    hide Reachable, OutputInv, LockInv, QueueInv, FlowInv, LoopInv, Fits, FramesOf, Shape, Word, Speech, Chunky;
    var c := s.calls[id];
    assert FramesOf(s.out.log, id) == c.emitted;
    WordOfShape(id, c, s.out.broken);
    EndOfShape(id, c, s.out.broken);
  }

  /** Every frame on the wire belongs to a request that was received: the log is a merge of the calls' words. */
  lemma {:induction false} NoStrayFrames(registry: seq<Handler>, s: Conn, i: nat)
    requires Reachable(registry, s) && i < |s.out.log|
    ensures s.out.log[i].id in s.calls
    ensures exists n :: 0 <= n < |s.input| && s.input[n].id == s.out.log[i].id && StrEq(s.input[n].msgType, REQUEST)
  {
    ReachableInv(registry, s);
    hide Reachable, OutputInv, LockInv, QueueInv, ShapeInv, LoopInv, FramesOf, StrEq, CellsFor;
    var id := s.out.log[i].id;
    assert Flow(s, id);
    assert s.input[s.calls[id].src].id == id;
  }

  // ---------------------------------------------------------------------------
  // Whole frames on the wire
  // ---------------------------------------------------------------------------

  /** For any number of writers and any schedule of partial sends, a reader recovers whole frames in log order. */
  lemma {:induction false} WireIsWholeFrames(registry: seq<Handler>, s: Conn)
    requires Reachable(registry, s) && !s.out.broken
    ensures AllFit(s.out.log) && ParseAll(s.out.wire) == Payloads(s.out.log)
    ensures Leftover(s.out.wire) == Partial(s.out)
    ensures Leftover(s.out.wire) != [] ==> Sending(s.out) && s.out.hold.value.who in s.calls
  {
    ReachableInv(registry, s);
    hide Reachable, LogInv, QueueInv, ShapeInv, LoopInv, FlowInv;
    WholeFrames(s.out);
  }

  // ---------------------------------------------------------------------------
  // Stream input
  // ---------------------------------------------------------------------------

  /**
   * Conservation and order: while a streaming-input call is registered, what its handler has
   * received, then what is queued, then what the read loop is about to push, is exactly what
   * arrived for its id since registration, in wire order.
   */
  lemma {:induction false} InputConserved(registry: seq<Handler>, s: Conn, id: uint64)
    requires Reachable(registry, s) && id in s.calls
    ensures s.calls[id].taken <= Routed(s, id)
    ensures id in s.queues ==> s.calls[id].taken + s.queues[id] + Pending(s, id) == Routed(s, id)
  {
    ReachableInv(registry, s);
    hide Reachable, OutputInv, LockInv, QueueInv, ShapeInv, LoopInv, LogInv, Routed;
    assert Flow(s, id);
  }

  /** A handler thread's initial lookup never misses: its queue is registered until it removes it itself. */
  lemma {:induction false} QueueIsThere(registry: seq<Handler>, s: Conn, id: uint64)
    requires Reachable(registry, s) && id in s.calls && HasInput(s.calls[id].kind)
    ensures id in s.queues <==> !s.calls[id].phase.Done?
  {
    ReachableInv(registry, s);
    hide Reachable, OutputInv, LockInv, FlowInv, ShapeInv, LoopInv, LogInv;
  }

  predicate HasEnd(q: seq<Cell>) {
    exists i :: 0 <= i < |q| && q[i].item.End?
  }

  /**
   * A disconnect strands nobody: once the read loop has ended, every call still registered has
   * an end mark among the items its handler received or in its queue, so a handler that stops
   * at its first end mark never waits on an empty queue.
   */
  lemma {:induction false} NobodyStranded(registry: seq<Handler>, s: Conn, id: uint64)
    requires Reachable(registry, s) && s.loop.Ended? && id in s.queues
    ensures id in s.calls
    ensures HasEnd(s.calls[id].taken) || HasEnd(s.queues[id])
    ensures s.calls[id].phase.Running? && !HasEnd(s.calls[id].taken) ==> Enabled(s, Recv(id))
  {
    hide Enabled, HasEnd;
    ReachableInv(registry, s);
    hide Reachable, OutputInv, LockInv, ShapeInv, LogInv, Flow, LoopInv;
    ClosedQueueHasEnd(s, id);
    if s.calls[id].phase.Running? && s.queues[id] != [] {
      MayReceive(s, id);
    }
  }

  lemma {:induction false} ClosedQueueHasEnd(s: Conn, id: uint64)
    requires id in s.calls && id in s.queues && Flow(s, id) && s.loop.Ended?
    ensures HasEnd(s.calls[id].taken) || (s.queues[id] != [] && HasEnd(s.queues[id]))
  {
    hide CellsFor, StrEq, HasEnd;
    var t, q := s.calls[id].taken, s.queues[id];
    assert t + q + [] == t + q;
    EndIsSomewhere(t, q, CellsFor(id, s.input, s.calls[id].src + 1), |s.input|);
  }

  lemma {:induction false} MayReceive(s: Conn, id: uint64)
    requires id in s.calls && s.calls[id].phase.Running? && HasInput(s.calls[id].kind)
    requires id in s.queues && s.queues[id] != []
    ensures Enabled(s, Recv(id))
  {
  }

  lemma {:induction false} EndIsSomewhere(t: seq<Cell>, q: seq<Cell>, r: seq<Cell>, n: nat)
    requires t + q == r + [Cell(End, n)]
    ensures HasEnd(t) || (q != [] && HasEnd(q))
  {
    var all := t + q;
    assert all[|all| - 1].item.End?;
    if q != [] {
      assert q[|q| - 1] == all[|all| - 1];
    } else {
      assert t[|t| - 1] == all[|all| - 1];
    }
  }

  // ---------------------------------------------------------------------------
  // The end of a connection
  // ---------------------------------------------------------------------------

  /** The closing loop, for the queues still to do. */
  lemma {:induction false} ClosesRest(registry: seq<Handler>, s: Conn) returns (s': Conn)
    requires Reachable(registry, s) && s.loop.Closing? && s.loop.todo <= s.queues.Keys
    ensures Reachable(registry, s') && s'.loop.Ended? && s'.calls == s.calls && s'.out == s.out && s'.queues.Keys == s.queues.Keys
    ensures forall id :: id in s.queues ==> s'.queues[id] == s.queues[id] + if id in s.loop.todo then [Cell(End, |s.input|)] else []
    decreases |s.loop.todo|
  {
    hide Reachable, Decode, Fits, CanTransmit, CanAcquire, CanRelease;
    if s.loop.todo == {} {
      Goes(registry, s, CloseDone);
      s' := Next(s, CloseDone);
    } else {
      var id :| id in s.loop.todo;
      Goes(registry, s, CloseOne(id));
      var s1 := Next(s, CloseOne(id));
      assert |s1.loop.todo| < |s.loop.todo|;
      s' := ClosesRest(registry, s1);
    }
  }

  /** Whenever the read loop reads, the peer may go: the loop then comes to its end, with one end mark after every queue. */
  lemma {:induction false} PeerMayGo(registry: seq<Handler>, s: Conn) returns (s': Conn)
    requires Reachable(registry, s) && s.loop.Reading?
    ensures Reachable(registry, s') && s'.loop.Ended? && s'.calls == s.calls && s'.out == s.out && s'.queues.Keys == s.queues.Keys
    ensures forall id :: id in s.queues ==> s'.queues[id] == s.queues[id] + [Cell(End, |s.input|)]
  {
    hide Reachable, Decode, Fits, CanTransmit, CanAcquire, CanRelease;
    Goes(registry, s, Disconnect);
    s' := ClosesRest(registry, Next(s, Disconnect));
  }
}
