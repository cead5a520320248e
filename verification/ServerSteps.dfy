/** Every action keeps the invariant, one lemma for each invariant and kind of action; then all runs do. */
module ServerSteps {
  import opened Bytes
  import opened Framing
  import opened Mpack
  import opened Message
  import opened StreamInput
  import opened WriteLock
  import opened Server
  import opened ServerInv

  // ---------------------------------------------------------------------------
  // Steps that only move items between the read loop, the queues and the handlers
  // ---------------------------------------------------------------------------

  /** The lock and the log look only at the calls and the output. */
  lemma {:induction false} SameCallsAndOutput(s: Conn, s': Conn)
    requires s'.calls == s.calls && s'.out == s.out
    requires LockInv(s) && LogInv(s)
    ensures LockInv(s') && LogInv(s')
  {
    hide FramesOf, Sending;
  }

  lemma {:induction false} PushFlow(s: Conn, id: uint64)
    requires Enabled(s, Push) && id in s.calls && Flow(s, id)
    ensures Flow(DoPush(s), id)
  {
    hide CellsFor, StrEq, Decode, Fits, CanTransmit, CanRelease, CanAcquire;
    var s' := DoPush(s);
    assert Routed(s', id) == Routed(s, id);
    if id in s.queues {
      var t, q := s.calls[id].taken, s.queues[id];
      if id == s.loop.id {
        assert t + q + [s.loop.cell] == t + (q + [s.loop.cell]) + [];
      }
    }
  }

  lemma {:induction false} PushKeeps(s: Conn)
    requires Inv(s) && Enabled(s, Push)
    ensures Inv(DoPush(s))
  {
    hide OutputInv, LockInv, LogInv, Shape, Flow, IsStreamFrame, ItemFor, Decode, Fits, CanTransmit, CanRelease, CanAcquire;
    var s' := DoPush(s);
    SameCallsAndOutput(s, s');
    forall id | id in s'.calls ensures Flow(s', id) {
      PushFlow(s, id);
    }
  }

  lemma {:induction false} DisconnectFlow(s: Conn, id: uint64)
    requires Enabled(s, Disconnect) && id in s.calls && Flow(s, id)
    ensures Flow(Next(s, Disconnect), id)
  {
    hide CellsFor, StrEq, Decode, Fits, CanTransmit, CanRelease, CanAcquire;
    var s' := Next(s, Disconnect);
    if id in s.queues {
      assert Routed(s', id) == Routed(s, id);
    } else {
      assert Routed(s, id) <= Routed(s', id);
    }
  }

  lemma {:induction false} DisconnectKeeps(s: Conn)
    requires Inv(s) && Enabled(s, Disconnect)
    ensures Inv(Next(s, Disconnect))
  {
    hide OutputInv, LockInv, LogInv, Shape, Flow, Decode, Fits, CanTransmit, CanRelease, CanAcquire;
    var s' := Next(s, Disconnect);
    SameCallsAndOutput(s, s');
    forall id | id in s'.calls ensures Flow(s', id) {
      DisconnectFlow(s, id);
    }
  }

  lemma {:induction false} CloseOneFlow(s: Conn, id0: uint64, id: uint64)
    requires Enabled(s, CloseOne(id0)) && id in s.calls && Flow(s, id)
    ensures Flow(DoCloseOne(s, id0), id)
  {
    hide CellsFor, StrEq, Decode, Fits, CanTransmit, CanRelease, CanAcquire;
    var s' := DoCloseOne(s, id0);
    if id == id0 {
      var mark := [Cell(End, |s.input|)];
      var t, q := s.calls[id].taken, s.queues[id];
      assert Routed(s', id) == Routed(s, id) + mark;
      assert t + q + [] + mark == t + (q + mark) + [];
      assert t <= Routed(s, id) <= Routed(s', id);
    } else {
      assert Routed(s', id) == Routed(s, id);
    }
  }

  lemma {:induction false} CloseOneKeeps(s: Conn, id0: uint64)
    requires Inv(s) && Enabled(s, CloseOne(id0))
    ensures Inv(DoCloseOne(s, id0))
  {
    hide OutputInv, LockInv, LogInv, Shape, Flow, Decode, Fits, CanTransmit, CanRelease, CanAcquire;
    var s' := DoCloseOne(s, id0);
    SameCallsAndOutput(s, s');
    forall id | id in s'.calls ensures Flow(s', id) {
      CloseOneFlow(s, id0, id);
    }
  }

  lemma {:induction false} CloseDoneKeeps(s: Conn)
    requires Inv(s) && Enabled(s, CloseDone)
    ensures Inv(Next(s, CloseDone))
  {
    hide OutputInv, LockInv, LogInv, Shape, CellsFor, StrEq, Decode, Fits, CanTransmit, CanRelease, CanAcquire;
    var s' := Next(s, CloseDone);
    SameCallsAndOutput(s, s');
    forall id | id in s'.calls ensures Flow(s', id) {
      assert Flow(s, id);
      assert Routed(s', id) == Routed(s, id);
    }
  }

  lemma {:induction false} ResumeKeeps(s: Conn)
    requires Inv(s) && Enabled(s, Resume)
    ensures Inv(DoResume(s))
  {
    hide OutputInv, LockInv, LogInv, Shape, CellsFor, StrEq, Decode, Fits, CanTransmit, CanRelease, CanAcquire;
    var s' := DoResume(s);
    SameCallsAndOutput(s, s');
    forall id | id in s'.calls ensures Flow(s', id) {
      assert Flow(s, id);
      assert Routed(s', id) == Routed(s, id);
    }
  }

  /** A call record changed in a way its log and its lock do not see. */
  lemma {:induction false} QuietUpdate(s: Conn, s': Conn, id0: uint64)
    requires id0 in s.calls && s'.calls.Keys == s.calls.Keys && s'.out == s.out
    requires forall id :: id in s.calls && id != id0 ==> s'.calls[id] == s.calls[id]
    requires s'.calls[id0].emitted == s.calls[id0].emitted && s'.calls[id0].phase == s.calls[id0].phase
    requires LockInv(s) && LogInv(s)
    ensures LockInv(s') && LogInv(s')
  {
    hide FramesOf, Sending;
  }

  lemma {:induction false} ShapeIgnoresTaken(id: uint64, c: Call, t: seq<Cell>, broken: bool)
    requires Shape(id, c, broken)
    ensures Shape(id, c.(taken := t), broken)
  {
    hide Chunky, MayEnd, Fits;
  }

  lemma {:induction false} RecvFlow(s: Conn, id0: uint64, id: uint64)
    requires Enabled(s, Recv(id0)) && id in s.calls && Flow(s, id)
    ensures Flow(DoRecv(s, id0), id)
  {
    hide CellsFor, IsStreamFrame, ItemFor, StrEq, Fits, Decode, CanTransmit, CanRelease, CanAcquire;
    var s' := DoRecv(s, id0);
    assert Routed(s', id) == Routed(s, id);
    if id == id0 {
      var t, q, p := s.calls[id].taken, s.queues[id], Pending(s, id);
      assert t + q + p == t + [q[0]] + q[1..] + p;
      assert t + [q[0]] <= t + q + p;
    }
  }

  lemma {:induction false} RecvKeeps(s: Conn, id0: uint64)
    requires Inv(s) && Enabled(s, Recv(id0))
    ensures Inv(DoRecv(s, id0))
  {
    hide OutputInv, LockInv, LogInv, Shape, Flow, IsStreamFrame, ItemFor, Decode, Fits, CanTransmit, CanRelease, CanAcquire;
    var s' := DoRecv(s, id0);
    QuietUpdate(s, s', id0);
    forall id | id in s'.calls ensures Flow(s', id) {
      RecvFlow(s, id0, id);
    }
    ShapeIgnoresTaken(id0, s.calls[id0], s'.calls[id0].taken, s.out.broken);
  }

  // ---------------------------------------------------------------------------
  // Steps of one thread's output
  // ---------------------------------------------------------------------------

  /** Only what one call has sent, returned and decided changed, and it did not finish. */
  predicate SoftUpdate(s: Conn, s': Conn, id0: uint64) {
    && s'.input == s.input && s'.loop == s.loop && s'.queues == s.queues && s'.registry == s.registry
    && s'.calls.Keys == s.calls.Keys && id0 in s.calls
    && (forall id :: id in s.calls && id != id0 ==> s'.calls[id] == s.calls[id])
    && s'.calls[id0].kind == s.calls[id0].kind && s'.calls[id0].src == s.calls[id0].src
    && s'.calls[id0].taken == s.calls[id0].taken && s'.calls[id0].args == s.calls[id0].args
    && (s'.calls[id0].phase.Done? <==> s.calls[id0].phase.Done?)
  }

  lemma {:induction false} SoftFlow(s: Conn, s': Conn, id0: uint64, id: uint64)
    requires SoftUpdate(s, s', id0) && id in s.calls && Flow(s, id)
    ensures Flow(s', id)
  {
    hide CellsFor, StrEq;
    assert s'.calls[id].src == s.calls[id].src && s'.calls[id].taken == s.calls[id].taken;
  }

  lemma {:induction false} SoftUpdateKeepsInput(s: Conn, s': Conn, id0: uint64)
    requires Exported(s.registry) && QueueInv(s) && FlowInv(s) && LoopInv(s) && SoftUpdate(s, s', id0)
    ensures Exported(s'.registry) && QueueInv(s') && FlowInv(s') && LoopInv(s')
  {
    hide Flow, IsStreamFrame, ItemFor;
    forall id | id in s'.calls ensures Flow(s', id) {
      SoftFlow(s, s', id0, id);
    }
    assert forall id :: id in s.calls ==> s'.calls[id].kind == s.calls[id].kind &&
                                          (s'.calls[id].phase.Done? <==> s.calls[id].phase.Done?);
  }

  lemma {:induction false} SoftUpdateKeepsOthers(s: Conn, s': Conn, id0: uint64)
    requires ShapeInv(s) && SoftUpdate(s, s', id0)
    requires s'.out.broken == s.out.broken || (s'.out.broken && !s.out.broken)
    requires Shape(id0, s'.calls[id0], s'.out.broken)
    ensures ShapeInv(s')
  {
    hide Chunky, MayEnd, Speaks, ChunksThen, CompleteWord;
    forall id | id in s'.calls ensures Shape(id, s'.calls[id], s'.out.broken) {
      if id != id0 {
        assert Shape(id, s.calls[id], s.out.broken);
      }
    }
  }

  lemma {:induction false} EmitKeeps(s: Conn, id0: uint64, v: Value)
    requires Inv(s) && Enabled(s, Emit(id0, v))
    ensures Inv(Next(s, Emit(id0, v)))
  {
    hide OutputInv, LockInv, LogInv, Flow, LoopInv, QueueInv, Chunky, Fits, Decode, CanTransmit, CanRelease, CanAcquire;
    var s' := Next(s, Emit(id0, v));
    SoftUpdateKeepsInput(s, s', id0);
    assert Shape(id0, s.calls[id0], s.out.broken);
    SoftUpdateKeepsOthers(s, s', id0);
    StartsWriting(s, s', id0);
  }

  /** A thread that is not writing can change its phase without touching the lock or the log. */
  lemma {:induction false} StartsWriting(s: Conn, s': Conn, id0: uint64)
    requires id0 in s.calls && s'.calls.Keys == s.calls.Keys && s'.out == s.out
    requires forall id :: id in s.calls && id != id0 ==> s'.calls[id] == s.calls[id]
    requires !s.calls[id0].phase.Writing? && !s.calls[id0].phase.Written? && !s'.calls[id0].phase.Written?
    requires s'.calls[id0].emitted == s.calls[id0].emitted
    requires LockInv(s) && LogInv(s)
    ensures LockInv(s') && LogInv(s')
  {
    hide FramesOf, Sending;
  }

  /** What a handler returns is a legal end for its kind, and only a response can be too large to send. */
  lemma {:induction false} OutcomeOk(id: uint64, kind: Kind, ok: bool, v: Value)
    requires !kind.Refused?
    ensures var m := Outcome(id, kind, ok, v);
            m.id == id && Terminal(m) && MayEnd(kind, m) && (!Fits(m) ==> m.Response?)
  {
    hide Fits, Ascii;
    SmallFits(id, Ascii("Error"), Ascii("handler returned an error"));
  }

  lemma {:induction false} ReturnShape(id: uint64, c: Call, ok: bool, v: Value, broken: bool)
    requires Shape(id, c, broken) && c.phase.Running?
    ensures var m := Outcome(id, c.kind, ok, v);
            Shape(id, c.(returned := Some(Returned(ok, v)), outcome := Some(m), phase := if Fits(m) then Writing(m) else Cleanup), broken)
  {
    hide Fits, Chunky, Ascii;
    OutcomeOk(id, c.kind, ok, v);
  }

  lemma {:induction false} ReturnKeeps(s: Conn, id0: uint64, ok: bool, v: Value)
    requires Inv(s) && Enabled(s, Return(id0, ok, v))
    ensures Inv(DoReturn(s, id0, ok, v))
  {
    hide OutputInv, LockInv, LogInv, Flow, LoopInv, QueueInv, Shape, Outcome, Fits;
    var s' := DoReturn(s, id0, ok, v);
    SoftUpdateKeepsInput(s, s', id0);
    ReturnShape(id0, s.calls[id0], ok, v, s.out.broken);
    SoftUpdateKeepsOthers(s, s', id0);
    StartsWriting(s, s', id0);
  }

  lemma {:induction false} LockKeeps(s: Conn, id0: uint64)
    requires Inv(s) && Enabled(s, Lock(id0))
    ensures Inv(Next(s, Lock(id0)))
  {
    hide OutputInv, LogInv, Flow, LoopInv, QueueInv, Shape, LockInv, Decode, Fits, CanTransmit, CanRelease, CanAcquire;
    var s' := Next(s, Lock(id0));
    SoftUpdateKeepsInput(s, s', id0);
    SoftUpdateKeepsOthers(s, s', id0);
    AcquireKeeps(s.out, id0, s.calls[id0].phase.msg);
    LockTaken(s, id0);
  }

  lemma {:induction false} LockTaken(s: Conn, id0: uint64)
    requires LockInv(s) && LogInv(s) && Enabled(s, Lock(id0))
    ensures LockInv(Next(s, Lock(id0))) && LogInv(Next(s, Lock(id0)))
  {
    hide FramesOf, Encode;
    var s' := Next(s, Lock(id0));
    assert s'.out.log == s.out.log;
    assert Sending(s'.out);
  }

  // ---------------------------------------------------------------------------
  // Sending
  // ---------------------------------------------------------------------------

  lemma {:induction false} SentShape(id: uint64, c: Call, m: Outgoing, broken: bool)
    requires Shape(id, c, broken) && c.phase == Writing(m)
    ensures Shape(id, c.(emitted := c.emitted + [m], phase := Written(m)), broken)
  {
    hide Fits, MayEnd;
    var e := c.emitted + [m];
    assert e[..|e| - 1] == c.emitted;
  }

  lemma {:induction false} SendLog(s: Conn, id0: uint64, k: nat)
    requires LockInv(s) && LogInv(s) && ShapeInv(s) && Enabled(s, Send(id0, k))
    ensures LogInv(DoSend(s, id0, k))
  {
    hide FramesOf, Encode, Chunky, MayEnd, Fits;
    var s' := DoSend(s, id0, k);
    var m := s.out.hold.value.msg;
    if Completes(s.out, k) {
      assert Shape(id0, s.calls[id0], s.out.broken);
      assert m.id == id0;
      forall id | id in s'.calls ensures FramesOf(s'.out.log, id) == s'.calls[id].emitted {
        FramesOfAppend(s.out.log, m, id);
      }
    }
  }

  lemma {:induction false} SendLock(s: Conn, id0: uint64, k: nat)
    requires LockInv(s) && Enabled(s, Send(id0, k))
    ensures LockInv(DoSend(s, id0, k))
  {
    hide Encode, Frame;
  }

  lemma {:induction false} SendEffect(s: Conn, id0: uint64, k: nat)
    requires LockInv(s) && Enabled(s, Send(id0, k))
    ensures var s', c, m := DoSend(s, id0, k), s.calls[id0], s.out.hold.value.msg;
            && SoftUpdate(s, s', id0)
            && s'.out == Transmit(s.out, k)
            && c.phase == Writing(m)
            && (s'.calls[id0] == c || s'.calls[id0] == c.(emitted := c.emitted + [m], phase := Written(m)))
  {
    hide Encode, Frame;
  }

  lemma {:induction false} SendKeeps(s: Conn, id0: uint64, k: nat)
    requires Inv(s) && Enabled(s, Send(id0, k))
    ensures Inv(DoSend(s, id0, k))
  {
    hide OutputInv, LogInv, LockInv, Flow, LoopInv, QueueInv, Shape, Transmit, DoSend, CanTransmit, SoftUpdate;
    var s' := DoSend(s, id0, k);
    SendEffect(s, id0, k);
    SendLock(s, id0, k);
    SendLog(s, id0, k);
    SoftUpdateKeepsInput(s, s', id0);
    SentShape(id0, s.calls[id0], s.out.hold.value.msg, s.out.broken);
    SameBroken(s.out, k);
    SoftUpdateKeepsOthers(s, s', id0);
    TransmitKeeps(s.out, k);
  }

  lemma {:induction false} SameBroken(o: Output, k: nat)
    requires CanTransmit(o, k)
    ensures Transmit(o, k).broken == o.broken
  {
    hide Encode;
  }

  lemma {:induction false} UnlockedShape(id: uint64, c: Call, m: Outgoing, broken: bool)
    requires Shape(id, c, broken) && c.phase == Written(m)
    ensures Shape(id, c.(phase := AfterWrite(m)), broken)
  {
    hide Fits, MayEnd;
    if !Terminal(m) {
      var e := c.emitted;
      assert Chunky(id, e) by {
        forall i | 0 <= i < |e| ensures e[i].StreamChunk? && e[i].id == id {
          if i < |e| - 1 { assert e[i] == e[..|e| - 1][i]; }
        }
      }
      assert !c.kind.Refused?;
    }
  }

  lemma {:induction false} FailedShape(id: uint64, c: Call, m: Outgoing, broken: bool)
    requires Shape(id, c, broken) && c.phase == Writing(m)
    ensures Shape(id, c.(phase := AfterWrite(m)), true)
  {
    hide Fits, MayEnd, Chunky;
  }

  /** Giving the lock back, after a whole frame or after a failed send. */
  lemma {:induction false} LockGiven(s: Conn, s': Conn, id0: uint64)
    requires LockInv(s) && LogInv(s) && HoldsLock(s, id0) && id0 in s.calls
    requires id0 in s'.calls && s'.calls == s.calls[id0 := s'.calls[id0]]
    requires s'.calls[id0].emitted == s.calls[id0].emitted && !s'.calls[id0].phase.Written?
    requires s'.out.hold.None? && s'.out.log == s.out.log
    ensures LockInv(s') && LogInv(s')
  {
    hide FramesOf, Sending;
  }

  lemma {:induction false} UnlockKeeps(s: Conn, id0: uint64)
    requires Inv(s) && Enabled(s, Unlock(id0))
    ensures Inv(Next(s, Unlock(id0)))
  {
    hide OutputInv, LogInv, LockInv, Flow, LoopInv, QueueInv, Shape, CanRelease, Decode, Fits, CanTransmit, CanAcquire;
    var s' := Next(s, Unlock(id0));
    SoftUpdateKeepsInput(s, s', id0);
    UnlockedShape(id0, s.calls[id0], s.calls[id0].phase.msg, s.out.broken);
    SoftUpdateKeepsOthers(s, s', id0);
    ReleaseKeeps(s.out);
    LockGiven(s, s', id0);
  }

  lemma {:induction false} SendFailsKeeps(s: Conn, id0: uint64)
    requires Inv(s) && Enabled(s, SendFails(id0))
    ensures Inv(Next(s, SendFails(id0)))
  {
    hide OutputInv, LogInv, LockInv, Flow, LoopInv, QueueInv, Shape, Decode, Fits, CanTransmit, CanRelease, CanAcquire;
    var s' := Next(s, SendFails(id0));
    SoftUpdateKeepsInput(s, s', id0);
    FailedShape(id0, s.calls[id0], s.calls[id0].phase.msg, s.out.broken);
    SoftUpdateKeepsOthers(s, s', id0);
    BreakKeeps(s.out);
    LockGiven(s, s', id0);
  }

  // ---------------------------------------------------------------------------
  // The end of a thread
  // ---------------------------------------------------------------------------

  lemma {:induction false} RemoveFlow(s: Conn, id0: uint64, id: uint64)
    requires Enabled(s, Remove(id0)) && id in s.calls && Flow(s, id)
    ensures Flow(DoRemove(s, id0), id)
  {
    hide CellsFor, StrEq, ChunkTrees, Decode, Fits, CanTransmit, CanRelease, CanAcquire;
  }

  lemma {:induction false} DoneShape(id: uint64, c: Call, broken: bool)
    requires Shape(id, c, broken) && c.phase.Cleanup?
    ensures Shape(id, c.(phase := Done), broken)
  {
    hide Chunky, MayEnd, ChunksThen, CompleteWord;
  }

  lemma {:induction false} RemoveKeeps(s: Conn, id0: uint64)
    requires Inv(s) && Enabled(s, Remove(id0))
    ensures Inv(DoRemove(s, id0))
  {
    hide OutputInv, LogInv, LockInv, Flow, Shape, IsStreamFrame, ItemFor, ChunkTrees, Decode, Fits, CanTransmit, CanRelease, CanAcquire;
    var s' := DoRemove(s, id0);
    StartsWriting(s, s', id0);
    DoneShape(id0, s.calls[id0], s.out.broken);
    forall id | id in s'.calls ensures Flow(s', id) {
      RemoveFlow(s, id0, id);
    }
  }

  // ---------------------------------------------------------------------------
  // A received message
  // ---------------------------------------------------------------------------

  /** One more message in the input leaves every other call's flow as it was. */
  lemma {:induction false} MessageFlow(s: Conn, s': Conn, m: Message, id: uint64)
    requires id in s.calls && id in s'.calls && Flow(s, id) && s.loop.Reading?
    requires s'.calls[id] == s.calls[id] && s'.input == s.input + [m]
    requires !s'.loop.Closing? && !s'.loop.Ended?
    requires id in s'.queues <==> id in s.queues
    requires id in s.queues ==> s'.queues[id] == s.queues[id]
    requires id in s.queues ==> Pending(s', id) == if IsStreamFrame(m) && m.id == id then [Cell(ItemFor(m), |s.input|)] else []
    ensures Flow(s', id)
  {
    hide CellsFor, StrEq, ItemFor, IsStreamFrame;
    var c := s.calls[id];
    CellsForAppend(id, s.input, m, c.src + 1);
    var tail := if IsStreamFrame(m) && m.id == id then [Cell(ItemFor(m), |s.input|)] else [];
    assert Routed(s, id) + [] == Routed(s, id);
    assert Routed(s', id) == Routed(s, id) + tail;
    assert c.taken <= Routed(s, id) + tail;
    if id in s.queues {
      assert c.taken + s.queues[id] + [] == c.taken + s.queues[id];
    }
  }

  lemma {:induction false} NoFrames(log: seq<Outgoing>, id: uint64)
    requires forall i :: 0 <= i < |log| ==> log[i].id != id
    ensures FramesOf(log, id) == []
  {
    if log != [] {
      NoFrames(log[..|log| - 1], id);
    }
  }

  /** A call record under a new id, with nothing on the wire and the lock not taken. */
  lemma {:induction false} NewCallKeepsOutput(s: Conn, s': Conn, id0: uint64)
    requires LockInv(s) && LogInv(s) && id0 !in s.calls && id0 in s'.calls
    requires s'.calls == s.calls[id0 := s'.calls[id0]] && s'.out == s.out
    requires !s'.calls[id0].phase.Written? && s'.calls[id0].emitted == []
    ensures LockInv(s') && LogInv(s')
  {
    hide FramesOf, Sending;
    NoFrames(s.out.log, id0);
  }

  /** A message that starts no call: a stream frame, or one of a type the server does not handle. */
  lemma {:induction false} PlainRouteKeeps(s: Conn, m: Message)
    requires Inv(s) && s.loop.Reading? && (IsStreamFrame(m) || !StrEq(m.msgType, REQUEST))
    ensures Inv(Route(s, m))
  {
    hide OutputInv, LogInv, LockInv, Flow, Shape, IsStreamFrame, ItemFor, StrEq, Judge, Start, Reject;
    var s' := Route(s, m);
    SameCallsAndOutput(s, s');
    forall id | id in s'.calls ensures Flow(s', id) {
      MessageFlow(s, s', m, id);
    }
  }

  lemma {:induction false} FindHandlerKind(registry: seq<Handler>, func: bytes)
    requires Exported(registry)
    ensures FindHandler(registry, func).Some? ==> !FindHandler(registry, func).value.Refused?
  {
    hide CStr;
    if registry != [] {
      FindHandlerKind(registry[1..], func);
    }
  }

  lemma {:induction false} JudgeOk(registry: seq<Handler>, m: Message)
    requires Exported(registry)
    ensures match Judge(registry, m)
            case Accept(k) => !k.Refused?
            case Refuse(t, x) => |t| <= 1000 && |x| <= 1000
  {
    hide FindHandler, Ascii;
    if m.func.Some? {
      FindHandlerKind(registry, m.func.value);
    }
  }

  /** The flow of the call a request has just created. */
  lemma {:induction false} NewCallFlow(s: Conn, m: Message)
    requires s.input != [] && s.input[|s.input| - 1] == m && StrEq(m.msgType, REQUEST)
    requires m.id in s.calls && s.calls[m.id].src == |s.input| - 1 && s.calls[m.id].taken == []
    requires s.calls[m.id].kind.Refused? || s.calls[m.id].args == m.args
    requires !s.loop.Closing? && !s.loop.Ended? && !s.loop.Found?
    requires m.id in s.queues ==> s.queues[m.id] == []
    ensures Flow(s, m.id)
  {
    assert CellsFor(m.id, s.input, |s.input|) == [];
  }

  lemma {:induction false} StartKeeps(s: Conn, m: Message, kind: Kind)
    requires Inv(s) && s.loop.Reading? && m.id !in s.calls && !kind.Refused?
    requires !IsStreamFrame(m) && StrEq(m.msgType, REQUEST)
    ensures Inv(Start(s.(input := s.input + [m]), m, |s.input|, kind))
  {
    hide OutputInv, LogInv, LockInv, Flow, Shape, IsStreamFrame, ItemFor, StrEq;
    var s' := Start(s.(input := s.input + [m]), m, |s.input|, kind);
    NewCallKeepsOutput(s, s', m.id);
    FreshShape(m.id, s'.calls[m.id], s.out.broken);
    NewCallFlow(s', m);
    forall id | id in s'.calls ensures Flow(s', id) {
      if id != m.id {
        MessageFlow(s, s', m, id);
      }
    }
  }

  lemma {:induction false} FreshShape(id: uint64, c: Call, broken: bool)
    requires c.emitted == [] && c.outcome.None? && c.phase.Running? && !c.kind.Refused?
    ensures Shape(id, c, broken)
  {
  }

  lemma {:induction false} RefusedShape(id: uint64, c: Call, t: bytes, x: bytes, broken: bool)
    requires |t| <= 1000 && |x| <= 1000
    requires var e := Error(id, Some(t), Some(x)); c.emitted == [] && c.outcome == Some(e) && c.phase == Writing(e)
    ensures Shape(id, c, broken)
  {
    hide Fits;
    SmallFits(id, t, x);
  }

  lemma {:induction false} RejectKeeps(s: Conn, m: Message, t: bytes, x: bytes)
    requires Inv(s) && s.loop.Reading? && m.id !in s.calls && |t| <= 1000 && |x| <= 1000
    requires !IsStreamFrame(m) && StrEq(m.msgType, REQUEST)
    ensures Inv(Reject(s.(input := s.input + [m]), m, |s.input|, t, x))
  {
    hide OutputInv, LogInv, LockInv, Flow, Shape, IsStreamFrame, ItemFor, StrEq;
    var s' := Reject(s.(input := s.input + [m]), m, |s.input|, t, x);
    NewCallKeepsOutput(s, s', m.id);
    RefusedShape(m.id, s'.calls[m.id], t, x, s.out.broken);
    NewCallFlow(s', m);
    forall id | id in s'.calls ensures Flow(s', id) {
      if id != m.id {
        MessageFlow(s, s', m, id);
      }
    }
  }

  lemma {:induction false} RouteKeeps(s: Conn, m: Message)
    requires Inv(s) && s.loop.Reading? && (StrEq(m.msgType, REQUEST) ==> m.id !in s.calls)
    ensures Inv(Route(s, m))
  {
    hide OutputInv, LogInv, LockInv, FlowInv, ShapeInv, LoopInv, QueueInv, IsStreamFrame, ItemFor, StrEq, Judge, Start, Reject;
    if IsStreamFrame(m) || !StrEq(m.msgType, REQUEST) {
      PlainRouteKeeps(s, m);
    } else {
      JudgeOk(s.registry, m);
      match Judge(s.registry, m)
      case Accept(kind) => StartKeeps(s, m, kind);
      case Refuse(t, x) => RejectKeeps(s, m, t, x);
    }
  }

  // ---------------------------------------------------------------------------
  // All actions, all runs
  // ---------------------------------------------------------------------------

  lemma {:induction false} StepKeeps(s: Conn, a: Action)
    requires Inv(s) && Enabled(s, a)
    ensures Inv(Next(s, a))
  {
    hide Inv, Decode, DoPush, DoCloseOne, DoResume, DoRecv, DoReturn, DoSend, DoRemove, Route, CanTransmit, CanRelease, CanAcquire, Fits;
    match a
    case Receive(p) => if Decode(p).Some? { RouteKeeps(s, Decode(p).value); }
    case Push => PushKeeps(s);
    case Disconnect => DisconnectKeeps(s);
    case CloseOne(id) => CloseOneKeeps(s, id);
    case CloseDone => CloseDoneKeeps(s);
    case Resume => ResumeKeeps(s);
    case Recv(id) => RecvKeeps(s, id);
    case Emit(id, v) => EmitKeeps(s, id, v);
    case Return(id, ok, v) => ReturnKeeps(s, id, ok, v);
    case Lock(id) => LockKeeps(s, id);
    case Send(id, k) => SendKeeps(s, id, k);
    case Unlock(id) => UnlockKeeps(s, id);
    case SendFails(id) => SendFailsKeeps(s, id);
    case Remove(id) => RemoveKeeps(s, id);
  }

  lemma {:induction false} RunKeeps(s: Conn, actions: seq<Action>)
    requires Inv(s) && Possible(s, actions)
    ensures Inv(Server.After(s, actions))
    decreases |actions|
  {
    hide Inv, Enabled, Next;
    if actions != [] {
      StepKeeps(s, actions[0]);
      RunKeeps(Next(s, actions[0]), actions[1..]);
    }
  }
}
