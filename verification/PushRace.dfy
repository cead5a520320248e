/**
 * The read loop can push to a queue that its call has removed and freed
 * (c/src/server.c:606-616 against 470-473 and 157-170): for every registry with a function
 * that takes stream input there is such a run, and for no other registry. Each of the two
 * conditions under which it cannot happen is needed: the runs here break one and keep the other.
 */
module PushRace {
  import opened Bytes
  import opened Framing
  import opened Mpack
  import opened Message
  import opened MessageRoundTrip
  import opened StreamInput
  import opened WriteLock
  import opened Server
  import opened ServerInv
  import opened ServerSteps
  import opened ServerTheorems
  import opened PushSafety
  import opened SystemSteps

  /** The loop is about to push to a queue that is no longer there. */
  predicate Dangling(s: Conn) {
    s.loop.Found? && !Enabled(s, Push)
  }

  /** A frame payload that opens a call with stream input. */
  predicate OpensInput(registry: seq<Handler>, p: bytes) {
    && |p| <= MAX_FRAME
    && Decode(p).Some?
    && StrEq(Decode(p).value.msgType, REQUEST)
    && Judge(registry, Decode(p).value).Accept?
    && HasInput(Judge(registry, Decode(p).value).kind)
  }

  // ---------------------------------------------------------------------------
  // Building the runs
  // ---------------------------------------------------------------------------

  /** A call with stream input is running and nobody is writing. */
  predicate Live(s: Conn, id: uint64) {
    && id in s.calls && HasInput(s.calls[id].kind) && s.calls[id].phase.Running?
    && s.out.hold.None? && (s.loop.Reading? || s.loop.Found?)
  }

  lemma {:induction false} StartsCall(registry: seq<Handler>, p: bytes) returns (s: Conn)
    requires Exported(registry) && OpensInput(registry, p)
    ensures Reachable(registry, s) && s.loop.Reading? && s.input == [Decode(p).value]
    ensures var id := Decode(p).value.id;
            Live(s, id) && id in s.queues && s.queues[id] == [] && s.calls[id].taken == []
  {
    hide Reachable, Decode, StrEq, Judge;
    FreshIsReachable(registry);
    var s0, m := Init(registry), Decode(p).value;
    assert Enabled(s0, Receive(p));
    RequestIsNoStream(m);
    Goes(registry, s0, Receive(p));
    s := Next(s0, Receive(p));
  }

  /** An end mark arrives for the call and its queue is found. */
  lemma {:induction false} FindsQueue(registry: seq<Handler>, s: Conn, id: uint64) returns (s': Conn)
    requires Reachable(registry, s) && s.loop.Reading? && Live(s, id) && id in s.queues
    ensures Reachable(registry, s') && Live(s', id) && s'.queues == s.queues && s'.calls == s.calls
    ensures s'.loop == Found(id, Cell(End, |s.input|)) && s'.input == s.input + [Received(StreamEnd(id))]
  {
    hide Reachable, Encode, Decode, StrEq, Received, Judge;
    var m := StreamEnd(id);
    ClosesFit(id);
    Delivered(m);
    TypeTells(m);
    EndIsEnd(id);
    assert |Encode(m)| <= MAX_FRAME;
    Goes(registry, s, Receive(Encode(m)));
    s' := Next(s, Receive(Encode(m)));
  }

  lemma {:induction false} EndIsEnd(id: uint64)
    ensures ItemFor(Received(StreamEnd(id))) == End
  {
    hide StrEq, Received;
    TypeTells(StreamEnd(id));
  }

  /** The handler returns an error, its thread sends it and cleans up; the loop stands still. */
  lemma {:induction false} Finishes(registry: seq<Handler>, s: Conn, id: uint64) returns (s': Conn)
    requires Reachable(registry, s) && Live(s, id)
    ensures Reachable(registry, s') && s'.loop == s.loop && s'.input == s.input && id !in s'.queues
    ensures id in s'.calls && s'.calls[id].taken == s.calls[id].taken && s'.calls[id].kind == s.calls[id].kind
    ensures forall k :: k in s'.calls <==> k in s.calls
  {
    hide Reachable, Encode, Decode, Frame, Fits;
    var s1 := Fails(registry, s, id);
    s' := CleansUp(registry, s1, id);
  }

  lemma {:induction false} Fails(registry: seq<Handler>, s: Conn, id: uint64) returns (s': Conn)
    requires Reachable(registry, s) && Live(s, id)
    ensures Reachable(registry, s') && s'.loop == s.loop && s'.input == s.input && s'.calls.Keys == s.calls.Keys
    ensures id in s'.calls && s'.calls[id].taken == s.calls[id].taken && s'.calls[id].kind == s.calls[id].kind
    ensures s'.calls[id].phase.Writing? && Terminal(s'.calls[id].phase.msg) && Fits(s'.calls[id].phase.msg)
    ensures s'.out.hold == Some(Hold(id, s'.calls[id].phase.msg, 0))
  {
    hide Reachable, Encode, Decode, Frame, Fits;
    SmallFits(id, Ascii("Error"), Ascii("handler returned an error"));
    Goes(registry, s, Return(id, false, Null));
    var s1 := Next(s, Return(id, false, Null));
    Goes(registry, s1, Lock(id));
    s' := Next(s1, Lock(id));
  }

  lemma {:induction false} CleansUp(registry: seq<Handler>, s: Conn, id: uint64) returns (s': Conn)
    requires Reachable(registry, s) && id in s.calls && HasInput(s.calls[id].kind) && (s.loop.Reading? || s.loop.Found?)
    requires s.calls[id].phase.Writing? && Terminal(s.calls[id].phase.msg) && Fits(s.calls[id].phase.msg)
    requires s.out.hold == Some(Hold(id, s.calls[id].phase.msg, 0))
    ensures Reachable(registry, s') && s'.loop == s.loop && s'.input == s.input && id !in s'.queues && s'.calls.Keys == s.calls.Keys
    ensures id in s'.calls && s'.calls[id].taken == s.calls[id].taken && s'.calls[id].kind == s.calls[id].kind
  {
    hide Reachable, Encode, Decode, Frame, Fits;
    var m := s.calls[id].phase.msg;
    var k := |FrameOf(m)|;
    FrameNotEmpty(m);
    assert CanTransmit(s.out, k);
    Goes(registry, s, Send(id, k));
    var s1 := Next(s, Send(id, k));
    Goes(registry, s1, Unlock(id));
    var s2 := Next(s1, Unlock(id));
    Goes(registry, s2, Remove(id));
    s' := Next(s2, Remove(id));
  }

  // ---------------------------------------------------------------------------
  // Both conditions are needed
  // ---------------------------------------------------------------------------

  lemma {:induction false} NoQueueNoPush(s: Conn)
    requires s.loop.Found? && s.loop.id !in s.queues
    ensures Dangling(s)
  {
    hide Decode, Fits, CanTransmit, CanRelease, CanAcquire;
  }

  /** A handler that returns without draining its input is enough, however orderly the peer. */
  lemma {:induction false} EarlyReturnRaces(registry: seq<Handler>, p: bytes) returns (s: Conn)
    requires Exported(registry) && OpensInput(registry, p)
    ensures Reachable(registry, s) && Dangling(s)
    ensures PeerStops(s, s.loop.id) && !Drains(s, s.loop.id)
  {
    hide Reachable, Decode, Judge, Dangling, StrEq, IsStreamFrame, ItemFor, Received;
    var m := Decode(p).value;
    var s0 := StartsCall(registry, p);
    var s1 := FindsQueue(registry, s0, m.id);
    s := Finishes(registry, s1, m.id);
    NoQueueNoPush(s);
    RequestIsNoStream(m);
    NotRunning(registry, s, m.id);
  }

  /** A streaming-input call whose queue is gone has a handler that has returned. */
  lemma {:induction false} NotRunning(registry: seq<Handler>, s: Conn, id: uint64)
    requires Reachable(registry, s) && id in s.calls && HasInput(s.calls[id].kind) && id !in s.queues
    ensures s.calls[id].phase.Done?
  {
    hide Reachable;
    QueueIsThere(registry, s, id);
  }

  /** A peer that goes on after its end mark is enough, however well the handler drains its input. */
  lemma {:induction false} LateFrameRaces(registry: seq<Handler>, p: bytes) returns (s: Conn)
    requires Exported(registry) && OpensInput(registry, p)
    ensures Reachable(registry, s) && Dangling(s)
    ensures Drains(s, s.loop.id) && !PeerStops(s, s.loop.id)
  {
    hide Reachable, Decode, Judge, Dangling, StrEq, IsStreamFrame, ItemFor, Received;
    var m := Decode(p).value;
    var s0 := StartsCall(registry, p);
    var s1 := FindsQueue(registry, s0, m.id);
    var s2 := PushesAndReceives(registry, s1, m.id);
    var s3 := FindsQueue(registry, s2, m.id);
    s := Finishes(registry, s3, m.id);
    NoQueueNoPush(s);
    assert s.calls[m.id].taken[0].item.End?;
    var e := Received(StreamEnd(m.id));
    assert s.input[1] == e && s.input[2] == e;
    TypeTells(StreamEnd(m.id));
    EndIsEnd(m.id);
  }

  lemma {:induction false} PushesAndReceives(registry: seq<Handler>, s: Conn, id: uint64) returns (s': Conn)
    requires Reachable(registry, s) && Live(s, id) && id in s.queues && s.queues[id] == [] && s.calls[id].taken == []
    requires s.loop.Found? && s.loop.id == id
    ensures Reachable(registry, s') && Live(s', id) && s'.loop.Reading? && id in s'.queues && s'.queues[id] == []
    ensures s'.input == s.input && s'.calls[id].taken == [s.loop.cell]
  {
    hide Reachable, Decode, Fits;
    Goes(registry, s, Push);
    var s1 := Next(s, Push);
    Goes(registry, s1, Recv(id));
    s' := Next(s1, Recv(id));
  }

  // ---------------------------------------------------------------------------
  // Exactly the registries with a streaming-input function
  // ---------------------------------------------------------------------------

  /** The message came out of a frame. */
  ghost predicate Framed(m: Message) {
    exists p :: |p| <= MAX_FRAME && Decode(p) == Some(m)
  }

  /** Every message came out of a frame, and every call was accepted on the strength of its request. */
  ghost predicate Origin(registry: seq<Handler>, s: Conn) {
    && s.registry == registry
    && (forall n :: 0 <= n < |s.input| ==> Framed(s.input[n]))
    && (forall id :: id in s.calls && !s.calls[id].kind.Refused? ==> Accepted(s, id))
  }

  predicate Accepted(s: Conn, id: uint64)
    requires id in s.calls
  {
    var c := s.calls[id];
    c.src < |s.input| && StrEq(s.input[c.src].msgType, REQUEST) && Judge(s.registry, s.input[c.src]) == Accept(c.kind)
  }

  lemma {:induction false} RouteOrigin(registry: seq<Handler>, s: Conn, m: Message)
    requires Origin(registry, s) && Framed(m)
    ensures Origin(registry, Route(s, m))
  {
    hide Framed, StrEq, IsStreamFrame, Judge, ItemFor;
    var s' := Route(s, m);
    assert s'.input == s.input + [m];
    forall id | id in s'.calls && !s'.calls[id].kind.Refused? ensures Accepted(s', id) {
      if id in s.calls && s'.calls[id] == s.calls[id] { assert Accepted(s, id); }
    }
  }

  lemma {:induction false} StepOrigin(registry: seq<Handler>, s: Conn, a: Action)
    requires Inv(s) && Origin(registry, s) && Enabled(s, a)
    ensures Origin(registry, Next(s, a))
  {
    hide Inv, Enabled, Decode, Framed, Route, StrEq, Judge;
    var s' := Next(s, a);
    if a.Receive? {
      if Decode(a.payload).Some? {
        ReceiveIsRoute(s, a, Decode(a.payload).value);
        InFrame(s, a);
        RouteOrigin(registry, s, Decode(a.payload).value);
      } else {
        NotDecoded(s, a);
      }
    } else {
      InputStays(s, a);
      ServeEffect(s, a);
      hide Next;
      forall id | id in s'.calls && !s'.calls[id].kind.Refused? ensures Accepted(s', id) {
        assert Accepted(s, id);
      }
    }
  }

  lemma {:induction false} InFrame(s: Conn, a: Action)
    requires Enabled(s, a) && a.Receive? && Decode(a.payload).Some?
    ensures Framed(Decode(a.payload).value)
  {
    hide Decode, Fits, CanTransmit, CanRelease, CanAcquire, StrEq;
    assert |a.payload| <= MAX_FRAME;
  }

  lemma {:induction false} NotDecoded(s: Conn, a: Action)
    requires Enabled(s, a) && a.Receive? && Decode(a.payload).None?
    ensures Next(s, a) == s
  {
    hide Decode, Fits, CanTransmit, CanRelease, CanAcquire, StrEq;
  }

  lemma {:induction false} RunOrigin(registry: seq<Handler>, s: Conn, actions: seq<Action>)
    requires Inv(s) && Origin(registry, s) && Possible(s, actions)
    ensures Origin(registry, Server.After(s, actions))
    decreases |actions|
  {
    hide Inv, Enabled, Next, Origin;
    if actions != [] {
      StepKeeps(s, actions[0]);
      StepOrigin(registry, s, actions[0]);
      RunOrigin(registry, Next(s, actions[0]), actions[1..]);
    }
  }

  lemma {:induction false} ReachableOrigin(registry: seq<Handler>, s: Conn)
    requires Reachable(registry, s)
    ensures Origin(registry, s)
  {
    hide Inv, Possible, Origin;
    var actions :| Possible(Init(registry), actions) && Server.After(Init(registry), actions) == s;
    InitInv(registry);
    OriginAtStart(registry);
    RunOrigin(registry, Init(registry), actions);
  }

  lemma {:induction false} OriginAtStart(registry: seq<Handler>)
    ensures Origin(registry, Init(registry))
  {
  }

  /** A dangling push needs a call with stream input, and that needs a frame that opened it. */
  lemma {:induction false} DanglingWasOpened(registry: seq<Handler>, s: Conn) returns (p: bytes)
    requires Reachable(registry, s) && s.loop.Found?
    ensures OpensInput(registry, p)
  {
    hide Reachable, Inv, Decode, StrEq, Judge, Before;
    ReachableRace(registry, s);
    ReachableOrigin(registry, s);
    var c := s.calls[s.loop.id];
    assert Accepted(s, s.loop.id);
    assert Framed(s.input[c.src]);
    p :| |p| <= MAX_FRAME && Decode(p) == Some(s.input[c.src]);
  }

  /**
   * The read loop can reach a push to a queue that has been freed if and only if some frame
   * opens a call with stream input on the registry.
   */
  lemma {:induction false} RaceIffStreamInput(registry: seq<Handler>)
    requires Exported(registry)
    ensures (exists s :: Reachable(registry, s) && Dangling(s)) <==> (exists p :: OpensInput(registry, p))
  {
    hide Reachable, Dangling, OpensInput;
    if p :| OpensInput(registry, p) {
      var s := EarlyReturnRaces(registry, p);
    }
    if s :| Reachable(registry, s) && Dangling(s) {
      assert s.loop.Found? by { DanglingFound(s); }
      var p := DanglingWasOpened(registry, s);
    }
  }

  lemma {:induction false} DanglingFound(s: Conn)
    requires Dangling(s)
    ensures s.loop.Found?
  {
    hide Enabled;
  }

  /** Any client-stream or bidi function that a request fitting a frame can name is one. */
  lemma {:induction false} NamedFunctionOpens(registry: seq<Handler>, func: bytes, kind: Kind)
    requires FindHandler(registry, func) == Some(kind) && HasInput(kind)
    requires Fits(Request(1, Some(func), [], kind.Bidi?))
    ensures OpensInput(registry, Encode(Request(1, Some(func), [], kind.Bidi?)))
  {
    hide Encode, Decode, StrEq, FindHandler, Ascii;
    var m := Request(1, Some(func), [], kind.Bidi?);
    Delivered(m);
    TypeTells(m);
    FindByCStr(registry, func);
    JudgesByName(registry, func, kind);
  }

  lemma {:induction false} JudgesByName(registry: seq<Handler>, func: bytes, kind: Kind)
    requires FindHandler(registry, CStr(func)) == Some(kind) && HasInput(kind)
    ensures Judge(registry, Received(Request(1, Some(func), [], kind.Bidi?))) == Accept(kind)
  {
    hide FindHandler, Ascii, CStr;
  }

  /** And only such functions are: without a client-stream or bidi entry no frame opens stream input. */
  lemma {:induction false} OpenersAreNamed(registry: seq<Handler>, p: bytes)
    requires OpensInput(registry, p)
    ensures exists func, kind :: FindHandler(registry, func) == Some(kind) && HasInput(kind)
    ensures exists i :: 0 <= i < |registry| && HasInput(registry[i].kind)
  {
    hide Decode, StrEq, FindHandler, Ascii;
    var m := Decode(p).value;
    assert FindHandler(registry, m.func.value).Some?;
    FoundIsEntry(registry, m.func.value);
  }

  lemma {:induction false} FoundIsEntry(registry: seq<Handler>, func: bytes)
    requires FindHandler(registry, func).Some?
    ensures exists i :: 0 <= i < |registry| && Some(registry[i].kind) == FindHandler(registry, func)
  {
    hide CStr;
    if CStr(registry[0].name) == CStr(func) {
      assert Some(registry[0].kind) == FindHandler(registry, func);
    } else {
      FoundIsEntry(registry[1..], func);
      var i :| 0 <= i < |registry[1..]| && Some(registry[1..][i].kind) == FindHandler(registry[1..], func);
      assert registry[i + 1] == registry[1..][i];
    }
  }
}
