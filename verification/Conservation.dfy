/**
 * No decoded tree gets lost: on every run each of the two trees of every received message has
 * been freed or still has its owner. With single ownership, exactly one of the two holds.
 */
module Conservation {
  import opened Bytes
  import opened Mpack
  import opened Message
  import opened StreamInput
  import opened WriteLock
  import opened Server
  import opened ServerInv
  import opened ServerSteps
  import opened ServerTheorems
  import opened Ownership

  ghost predicate Accounted(s: Conn, t: Tree) {
    t in s.freed || exists o :: Owns(s, o, t)
  }

  ghost predicate AllAccounted(s: Conn) {
    forall n :: 0 <= n < |s.input| ==> Accounted(s, ArgsOf(n)) && Accounted(s, ResultOf(n))
  }

  // ---------------------------------------------------------------------------
  // A received message
  // ---------------------------------------------------------------------------

  /** Whoever owned a tree before a message is received still does. */
  lemma {:induction false} OwnersStay(s: Conn, m: Message, o: Owner, t: Tree)
    requires Inv(s) && s.loop.Reading? && (StrEq(m.msgType, REQUEST) ==> m.id !in s.calls) && Owns(s, o, t)
    ensures Owns(Route(s, m), o, t)
  {
    hide OutputInv, LockInv, LogInv, ShapeInv, FlowInv, LoopInv, StrEq, IsStreamFrame, ItemFor, Judge;
    if StrEq(m.msgType, REQUEST) { RequestIsNoStream(m); }
  }

  lemma {:induction false} NewTrees(s: Conn, m: Message)
    requires s.loop.Reading? && Exported(s.registry)
    ensures var s' := Route(s, m);
            && s'.input == s.input + [m] && s.freed <= s'.freed
            && Accounted(s', ArgsOf(|s.input|)) && Accounted(s', ResultOf(|s.input|))
  {
    hide StrEq, IsStreamFrame, ItemFor, Judge;
    var s', n := Route(s, m), |s.input|;
    JudgeOk(s.registry, m);
    if IsStreamFrame(m) && m.id in s.queues {
      assert Owns(s', InLoop, ArgsOf(n)) && Owns(s', InLoop, ResultOf(n));
    } else if !IsStreamFrame(m) && StrEq(m.msgType, REQUEST) {
      if Judge(s.registry, m).Accept? {
        assert Owns(s', InContext(m.id), ArgsOf(n)) && ResultOf(n) in s'.freed;
      } else {
        assert Owns(s', InLoop, ArgsOf(n)) && Owns(s', InLoop, ResultOf(n));
      }
    } else {
      assert ArgsOf(n) in s'.freed && ResultOf(n) in s'.freed;
    }
  }

  lemma {:induction false} RouteAccounts(s: Conn, m: Message)
    requires Inv(s) && AllAccounted(s) && s.loop.Reading? && (StrEq(m.msgType, REQUEST) ==> m.id !in s.calls)
    ensures AllAccounted(Route(s, m))
  {
    hide Route, Owns, StrEq, OutputInv, LockInv, LogInv, ShapeInv, FlowInv, LoopInv, QueueInv;
    var s' := Route(s, m);
    NewTrees(s, m);
    forall t | Accounted(s, t) ensures Accounted(s', t) {
      if t !in s.freed {
        var o :| Owns(s, o, t);
        OwnersStay(s, m, o, t);
      }
    }
  }

  // ---------------------------------------------------------------------------
  // The other steps
  // ---------------------------------------------------------------------------

  lemma {:induction false} PushPasses(s: Conn, o: Owner, t: Tree)
    requires Enabled(s, Push) && Owns(s, o, t)
    ensures Accounted(DoPush(s), t)
  {
    hide Decode, Fits, CanTransmit, CanAcquire, CanRelease, StrEq;
    var s', id := DoPush(s), s.loop.id;
    match o
    case InLoop =>
      if s.loop.cell.item.Chunk? && t.ResultOf? {
        assert Owns(s', InNode(id, |s.queues[id]|), t);
      } else {
        assert t in FreedByPush(s.loop.cell);
      }
    case InContext(_) => assert Owns(s', o, t);
    case InNode(_, _) => assert Owns(s', o, t);
    case InHandler(_, _) => assert Owns(s', o, t);
  }

  lemma {:induction false} RecvPasses(s: Conn, id: uint64, o: Owner, t: Tree)
    requires Enabled(s, Recv(id)) && Owns(s, o, t)
    ensures Accounted(DoRecv(s, id), t)
  {
    hide Decode, Fits, CanTransmit, CanAcquire, CanRelease, StrEq;
    var s' := DoRecv(s, id);
    if o.InNode? && o.id == id {
      if o.i == 0 {
        assert Owns(s', InHandler(id, |s.calls[id].taken|), t);
      } else {
        assert Owns(s', InNode(id, o.i - 1), t);
      }
    } else {
      assert Owns(s', o, t);
    }
  }

  lemma {:induction false} ClosePasses(s: Conn, id: uint64, o: Owner, t: Tree)
    requires Enabled(s, CloseOne(id)) && Owns(s, o, t)
    ensures Accounted(DoCloseOne(s, id), t)
  {
    hide Decode, Fits, CanTransmit, CanAcquire, CanRelease, StrEq;
    assert Owns(DoCloseOne(s, id), o, t);
  }

  lemma {:induction false} ResumePasses(s: Conn, o: Owner, t: Tree)
    requires Enabled(s, Resume) && Owns(s, o, t)
    ensures Accounted(DoResume(s), t)
  {
    hide Decode, Fits, CanTransmit, CanAcquire, CanRelease, StrEq;
    if !o.InLoop? { assert Owns(DoResume(s), o, t); }
  }

  lemma {:induction false} RemovePasses(s: Conn, id: uint64, o: Owner, t: Tree)
    requires LoopInv(s) && Enabled(s, Remove(id)) && Owns(s, o, t)
    ensures Accounted(DoRemove(s, id), t)
  {
    hide Decode, Fits, CanTransmit, CanAcquire, CanRelease, StrEq, IsStreamFrame, ItemFor, ChunkTrees;
    var s', c := DoRemove(s, id), s.calls[id];
    if o.InNode? && o.id == id && HasInput(c.kind) {
      ChunkTreesAre(s.queues[id]);
    } else if o.InContext? && o.id == id && !HasInput(c.kind) {
      assert t in s'.freed;
    } else {
      assert Owns(s', o, t);
    }
  }

  predicate Passes(a: Action) {
    a.Receive? || a.Push? || a.Recv? || a.CloseOne? || a.Resume? || a.Remove?
  }

  /** The remaining steps move no tree. */
  lemma {:induction false} QuietPasses(s: Conn, a: Action, o: Owner, t: Tree)
    requires Enabled(s, a) && !Passes(a) && Owns(s, o, t)
    ensures Accounted(Next(s, a), t)
  {
    hide Decode, Fits, CanTransmit, CanAcquire, CanRelease, StrEq, Outcome, FrameOf;
    assert Owns(Next(s, a), o, t);
  }

  lemma {:induction false} FreedStays(s: Conn, a: Action)
    requires Enabled(s, a) && !a.Receive?
    ensures Next(s, a).input == s.input && s.freed <= Next(s, a).freed
  {
    hide Decode, Fits, CanTransmit, CanAcquire, CanRelease, Outcome, ChunkTrees, FreedByPush, FrameOf;
  }

  lemma {:induction false} OwnerPasses(s: Conn, a: Action, o: Owner, t: Tree)
    requires Inv(s) && Enabled(s, a) && !a.Receive? && Owns(s, o, t)
    ensures Accounted(Next(s, a), t)
  {
    hide Owns, Accounted, Decode, OutputInv, LockInv, LogInv, ShapeInv, FlowInv, LoopInv, QueueInv, Fits, CanTransmit, CanAcquire, CanRelease;
    hide DoPush, DoRecv, DoCloseOne, DoResume, DoRemove;
    match a
    case Push => PushPasses(s, o, t);
    case Recv(id) => RecvPasses(s, id, o, t);
    case CloseOne(id) => ClosePasses(s, id, o, t);
    case Resume => ResumePasses(s, o, t);
    case Remove(id) => RemovePasses(s, id, o, t);
    case _ => QuietPasses(s, a, o, t);
  }

  lemma {:induction false} StepAccounts(s: Conn, a: Action)
    requires Inv(s) && AllAccounted(s) && Enabled(s, a)
    ensures AllAccounted(Next(s, a))
  {
    hide Inv, Owns, Route, Decode, StrEq;
    if a.Receive? {
      if Decode(a.payload).Some? { RouteAccounts(s, Decode(a.payload).value); }
    } else {
      FreedStays(s, a);
      hide Enabled, Next;
      forall t | Accounted(s, t) ensures Accounted(Next(s, a), t) {
        if t !in s.freed {
          var o :| Owns(s, o, t);
          OwnerPasses(s, a, o, t);
        }
      }
    }
  }

  lemma {:induction false} RunAccounts(s: Conn, actions: seq<Action>)
    requires Inv(s) && AllAccounted(s) && Possible(s, actions)
    ensures AllAccounted(Server.After(s, actions))
    decreases |actions|
  {
    hide Inv, AllAccounted, Enabled, Next;
    if actions != [] {
      StepAccounts(s, actions[0]);
      StepKeeps(s, actions[0]);
      RunAccounts(Next(s, actions[0]), actions[1..]);
    }
  }

  /**
   * Conservation: in every reachable state each tree of each received message has either been
   * freed, once, or is held by one owner.
   */
  lemma {:induction false} FreedOrOwned(registry: seq<Handler>, s: Conn, n: nat, t: Tree)
    requires Reachable(registry, s) && n < |s.input| && TreeOf(t, n)
    ensures t in s.freed <==> !exists o :: Owns(s, o, t)
    ensures forall o1, o2 :: Owns(s, o1, t) && Owns(s, o2, t) ==> o1 == o2
  {
    hide Inv, Owns, Possible, Server.After, AllAccounted;
    var actions :| Possible(Init(registry), actions) && Server.After(Init(registry), actions) == s;
    InitInv(registry);
    NothingYet(registry);
    RunAccounts(Init(registry), actions);
    Both(s, n);
    forall o1, o2 | Owns(s, o1, t) && Owns(s, o2, t) ensures o1 == o2 && t !in s.freed {
      OneOwner(registry, s, o1, o2, t);
    }
  }

  lemma {:induction false} NothingYet(registry: seq<Handler>)
    ensures AllAccounted(Init(registry))
  {
  }

  lemma {:induction false} Both(s: Conn, n: nat)
    requires AllAccounted(s) && n < |s.input|
    ensures Accounted(s, ArgsOf(n)) && Accounted(s, ResultOf(n))
  {
    hide Accounted;
  }
}
