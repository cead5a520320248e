/**
 * Ownership of the decoded value trees (c/src/server.c:79-129, 392-396, 525-534, 606-627 and
 * c/src/codec.c:162-194, 470-484). A tree is moved from the message to a dispatch context or a
 * queue node, from a queue node to the handler, and freed by whoever holds it; it is never
 * freed twice, and nothing that still holds it can see it freed.
 */
module Ownership {
  import opened Bytes
  import opened Mpack
  import opened Message
  import opened StreamInput
  import opened WriteLock
  import opened Server
  import opened ServerInv
  import opened ServerSteps
  import opened ServerTheorems
  import opened PushSafety

  predicate NoDup(ts: seq<Tree>) {
    forall i, j :: 0 <= i < j < |ts| ==> ts[i] != ts[j]
  }

  /** Both trees of message `n` are still allocated. */
  predicate Intact(s: Conn, n: nat) {
    ArgsOf(n) !in s.freed && ResultOf(n) !in s.freed
  }

  /** The read loop still owns the message it is working on. */
  predicate LoopOwns(s: Conn) {
    && (s.loop.Found? ==> Intact(s, s.loop.cell.src))
    && (s.loop.Refusing? && s.loop.id in s.calls ==> Intact(s, s.calls[s.loop.id].src))
  }

  /** A dispatch context owns its arguments until its thread frees them; streaming-input threads never do. */
  predicate ArgsHeld(c: Call) {
    !c.kind.Refused? && (HasInput(c.kind) || !c.phase.Done?)
  }

  predicate ContextsOwn(s: Conn) {
    forall id :: id in s.calls && ArgsHeld(s.calls[id]) ==> ArgsOf(s.calls[id].src) !in s.freed
  }

  predicate CellsOwn(freed: seq<Tree>, q: seq<Cell>) {
    forall i :: 0 <= i < |q| && q[i].item.Chunk? ==> ResultOf(q[i].src) !in freed
  }

  /** The queue nodes own what they carry, and so does the handler once it has received it. */
  predicate QueuesOwn(s: Conn) {
    && (forall id :: id in s.queues ==> CellsOwn(s.freed, s.queues[id]))
    && (forall id :: id in s.calls ==> CellsOwn(s.freed, s.calls[id].taken))
  }

  predicate Past(s: Conn) {
    forall t :: t in s.freed ==> t.n < |s.input|
  }

  predicate OwnInv(s: Conn) {
    NoDup(s.freed) && Past(s) && LoopOwns(s) && ContextsOwn(s) && QueuesOwn(s)
  }

  // ---------------------------------------------------------------------------
  // Different holders hold different trees
  // ---------------------------------------------------------------------------

  lemma {:induction false} RoutedCell(s: Conn, id: uint64, k: nat)
    requires id in s.calls && k < |Routed(s, id)| && Routed(s, id)[k].item.Chunk?
    ensures var c := Routed(s, id)[k];
            && k < |CellsFor(id, s.input, s.calls[id].src + 1)|
            && c.src < |s.input| && IsStreamFrame(s.input[c.src]) && s.input[c.src].id == id
            && c.item == ItemFor(s.input[c.src])
  {
    hide IsStreamFrame, ItemFor, CellsFor;
    CellsAre(id, s.input, s.calls[id].src + 1, k);
  }

  lemma {:induction false} RoutedDistinct(s: Conn, id: uint64, j: nat, k: nat)
    requires id in s.calls && j < k < |Routed(s, id)|
    requires Routed(s, id)[j].item.Chunk? && Routed(s, id)[k].item.Chunk?
    ensures Routed(s, id)[j].src < Routed(s, id)[k].src
  {
    hide IsStreamFrame, ItemFor, CellsFor;
    RoutedCell(s, id, j);
    RoutedCell(s, id, k);
    CellsIncrease(id, s.input, s.calls[id].src + 1, j, k);
  }

  /** Freeing `more`, none of it freed before and none of it held elsewhere, keeps the freed list duplicate-free. */
  lemma {:induction false} FreeMore(freed: seq<Tree>, more: seq<Tree>)
    requires NoDup(freed) && NoDup(more) && forall t :: t in more ==> t !in freed
    ensures NoDup(freed + more)
  {
    var all := freed + more;
    forall i, j | 0 <= i < j < |all| ensures all[i] != all[j] {
      if j < |freed| {
      } else if i < |freed| {
        assert all[j] in more && all[i] in freed;
      } else {
        assert all[i] == more[i - |freed|] && all[j] == more[j - |freed|];
      }
    }
  }

  /** The message behind a chunk that is queued or received. */
  predicate Behind(s: Conn, id: uint64, c: Cell) {
    c.src < |s.input| && IsStreamFrame(s.input[c.src]) && s.input[c.src].id == id && c.item == ItemFor(s.input[c.src])
  }

  predicate AllBehind(s: Conn, id: uint64, q: seq<Cell>) {
    forall i :: 0 <= i < |q| && q[i].item.Chunk? ==> Behind(s, id, q[i])
  }

  lemma {:induction false} HeldCells(s: Conn, id: uint64)
    requires id in s.calls && Flow(s, id)
    ensures AllBehind(s, id, s.calls[id].taken)
    ensures id in s.queues ==> AllBehind(s, id, s.queues[id])
  {
    hide CellsFor, StrEq, IsStreamFrame, ItemFor, Routed;
    var t, r := s.calls[id].taken, Routed(s, id);
    forall i | 0 <= i < |t| && t[i].item.Chunk? ensures Behind(s, id, t[i]) {
      assert t[i] == r[i];
      RoutedCell(s, id, i);
    }
    if id in s.queues {
      var q := s.queues[id];
      forall i | 0 <= i < |q| && q[i].item.Chunk? ensures Behind(s, id, q[i]) {
        assert q[i] == (t + q + Pending(s, id))[|t| + i] == r[|t| + i];
        RoutedCell(s, id, |t| + i);
      }
    }
  }

  /** No chunk held by any call comes from message `n`. */
  predicate NoChunkFrom(s: Conn, n: nat) {
    && (forall id, i :: id in s.queues && 0 <= i < |s.queues[id]| && s.queues[id][i].item.Chunk? ==> s.queues[id][i].src != n)
    && (forall id, i :: id in s.calls && 0 <= i < |s.calls[id].taken| && s.calls[id].taken[i].item.Chunk? ==>
          s.calls[id].taken[i].src != n)
  }

  lemma {:induction false} RequestHasNoChunk(s: Conn, n: nat)
    requires FlowInv(s) && QueueInv(s) && (n < |s.input| ==> StrEq(s.input[n].msgType, REQUEST))
    ensures NoChunkFrom(s, n)
  {
    hide Flow, StrEq, IsStreamFrame, ItemFor;
    if n < |s.input| { RequestIsNoStream(s.input[n]); }
    forall id | id in s.calls ensures AllBehind(s, id, s.calls[id].taken) && (id in s.queues ==> AllBehind(s, id, s.queues[id])) {
      HeldCells(s, id);
    }
  }

  lemma {:induction false} EndHasNoChunk(s: Conn, n: nat)
    requires FlowInv(s) && QueueInv(s) && n < |s.input| && ItemFor(s.input[n]).End?
    ensures NoChunkFrom(s, n)
  {
    hide Flow, StrEq, IsStreamFrame, ItemFor;
    forall id | id in s.calls ensures AllBehind(s, id, s.calls[id].taken) && (id in s.queues ==> AllBehind(s, id, s.queues[id])) {
      HeldCells(s, id);
    }
  }

  /** Two calls never share a request message. */
  lemma {:induction false} SourcesDiffer(s: Conn, a: uint64, b: uint64)
    requires FlowInv(s) && a in s.calls && b in s.calls && a != b
    ensures s.calls[a].src != s.calls[b].src
  {
    hide CellsFor, StrEq;
    assert Flow(s, a) && Flow(s, b);
  }

  // ---------------------------------------------------------------------------
  // Steps that free nothing
  // ---------------------------------------------------------------------------

  lemma {:induction false} NothingFreed(s: Conn, s': Conn)
    requires OwnInv(s) && s'.freed == s.freed && s'.input == s.input
    requires s'.loop == s.loop || (!s'.loop.Found? && !s'.loop.Refusing?)
    requires s'.calls.Keys == s.calls.Keys
    requires forall id :: id in s.calls ==> s'.calls[id].src == s.calls[id].src && s'.calls[id].kind == s.calls[id].kind
    requires forall id :: id in s.calls ==> (s'.calls[id].phase.Done? <==> s.calls[id].phase.Done?)
    requires forall id :: id in s.calls ==> CellsOwn(s.freed, s'.calls[id].taken)
    requires forall id :: id in s'.queues ==> CellsOwn(s.freed, s'.queues[id])
    ensures OwnInv(s')
  {
    hide CellsOwn;
  }

  lemma {:induction false} QuietOwn(s: Conn, a: Action)
    requires Inv(s) && OwnInv(s) && Enabled(s, a)
    requires a.Disconnect? || a.CloseDone? || a.Emit? || a.Return? || a.Lock? || a.Send? || a.Unlock? || a.SendFails?
    ensures OwnInv(Next(s, a))
  {
    hide Inv, OwnInv;
    hide Decode, Fits, CanTransmit, CanRelease, CanAcquire, Transmit, Completes, Outcome;
    HeldNow(s);
    NothingFreed(s, Next(s, a));
  }

  lemma {:induction false} HeldNow(s: Conn)
    requires OwnInv(s)
    ensures forall id :: id in s.calls ==> CellsOwn(s.freed, s.calls[id].taken)
    ensures forall id :: id in s.queues ==> CellsOwn(s.freed, s.queues[id])
  {
    hide CellsOwn;
  }

  lemma {:induction false} CloseOneOwn(s: Conn, id0: uint64)
    requires OwnInv(s) && Enabled(s, CloseOne(id0))
    ensures OwnInv(DoCloseOne(s, id0))
  {
    hide Decode, Fits, CanTransmit, CanRelease, CanAcquire;
    NothingFreed(s, DoCloseOne(s, id0));
  }

  lemma {:induction false} RecvOwn(s: Conn, id0: uint64)
    requires OwnInv(s) && Enabled(s, Recv(id0))
    ensures OwnInv(DoRecv(s, id0))
  {
    hide Decode, Fits, CanTransmit, CanRelease, CanAcquire;
    assert CellsOwn(s.freed, s.queues[id0]) && CellsOwn(s.freed, s.calls[id0].taken);
    NothingFreed(s, DoRecv(s, id0));
  }

  // ---------------------------------------------------------------------------
  // Steps that free
  // ---------------------------------------------------------------------------

  /** Trees of messages `n` that no context and no cell holds. */
  lemma {:induction false} FreeMessage(s: Conn, s': Conn, n: nat, more: seq<Tree>)
    requires OwnInv(s) && s'.freed == s.freed + more && s'.input == s.input && n < |s.input|
    requires more == [ArgsOf(n)] || more == [ArgsOf(n), ResultOf(n)]
    requires Intact(s, n)
    requires s'.calls == s.calls && (s'.loop.Reading?)
    requires forall id :: id in s.calls && ArgsHeld(s.calls[id]) ==> s.calls[id].src != n
    requires ResultOf(n) in more ==> NoChunkFrom(s, n)
    requires forall id :: id in s'.queues ==> CellsOwn(s.freed, s'.queues[id])
    requires ResultOf(n) in more ==> forall id, i ::
      id in s'.queues && 0 <= i < |s'.queues[id]| && s'.queues[id][i].item.Chunk? ==> s'.queues[id][i].src != n
    ensures OwnInv(s')
  {
    FreeMore(s.freed, more);
    assert forall t :: t in s'.freed <==> t in s.freed || t in more;
  }

  lemma {:induction false} PushEnabled(s: Conn)
    requires Inv(s) && Enabled(s, Push)
    ensures s.loop.Found? && s.loop.id in s.queues && s.loop.cell.src < |s.input| && FlowInv(s) && QueueInv(s)
    ensures IsStreamFrame(s.input[s.loop.cell.src]) && s.loop.cell.item == ItemFor(s.input[s.loop.cell.src])
  {
    hide OutputInv, LockInv, LogInv, ShapeInv, IsStreamFrame, ItemFor, FlowInv, QueueInv;
    hide Decode, Fits, CanTransmit, CanRelease, CanAcquire;
  }

  lemma {:induction false} StreamIsNoSource(s: Conn, n: nat, id: uint64)
    requires n < |s.input| && IsStreamFrame(s.input[n]) && id in s.calls && Flow(s, id)
    ensures s.calls[id].src != n
  {
    hide StrEq, IsStreamFrame, Routed, Pending;
    RequestIsNoStream(s.input[s.calls[id].src]);
  }

  lemma {:induction false} PushOwn(s: Conn)
    requires Inv(s) && OwnInv(s) && Enabled(s, Push)
    ensures OwnInv(DoPush(s))
  {
    hide Inv, Enabled, Flow, IsStreamFrame, ItemFor, QueueInv;
    PushEnabled(s);
    var s', cell := DoPush(s), s.loop.cell;
    forall id | id in s.calls ensures s.calls[id].src != cell.src {
      StreamIsNoSource(s, cell.src, id);
    }
    if cell.item.End? {
      EndHasNoChunk(s, cell.src);
    }
    hide FlowInv;
    assert forall id :: id in s'.queues ==> CellsOwn(s.freed, s'.queues[id]);
    FreeMessage(s, s', cell.src, FreedByPush(cell));
  }

  lemma {:induction false} ResumeOwn(s: Conn)
    requires Inv(s) && OwnInv(s) && Enabled(s, Resume)
    ensures OwnInv(DoResume(s))
  {
    hide OutputInv, LockInv, LogInv, ShapeInv, StrEq, IsStreamFrame, ItemFor, CellsFor, CellsOwn;
    hide Decode, Fits, CanTransmit, CanRelease, CanAcquire;
    var id0 := s.loop.id;
    var n := s.calls[id0].src;
    assert Flow(s, id0);
    RequestHasNoChunk(s, n);
    forall id | id in s.calls && ArgsHeld(s.calls[id]) ensures s.calls[id].src != n {
      SourcesDiffer(s, id, id0);
    }
    FreeMessage(s, DoResume(s), n, [ArgsOf(n), ResultOf(n)]);
  }

  // ---------------------------------------------------------------------------
  // The end of a thread
  // ---------------------------------------------------------------------------

  /** A unary or server-streaming thread frees its arguments (`free_args`). */
  lemma {:induction false} RemoveArgsOwn(s: Conn, id0: uint64)
    requires Inv(s) && OwnInv(s) && Enabled(s, Remove(id0)) && !HasInput(s.calls[id0].kind)
    ensures OwnInv(DoRemove(s, id0))
  {
    hide Inv, Enabled, FlowInv, CellsOwn, ChunkTrees;
    RemoveEnabled(s, id0);
    var s', c := DoRemove(s, id0), s.calls[id0];
    OnlyArgs(s, s', c.src);
    if !c.kind.Refused? {
      FreeMore(s.freed, [ArgsOf(c.src)]);
      assert forall t :: t in s'.freed <==> t in s.freed || t == ArgsOf(c.src);
      forall id | id in s.calls && id != id0 ensures s.calls[id].src != c.src {
        SourcesDiffer(s, id, id0);
      }
      hide QueuesOwn;
      LoopKeepsArgs(s, id0);
    }
  }

  lemma {:induction false} RemoveEnabled(s: Conn, id0: uint64)
    requires Inv(s) && Enabled(s, Remove(id0))
    ensures id0 in s.calls && s.calls[id0].phase.Cleanup? && FlowInv(s) && LoopInv(s) && s.calls[id0].src < |s.input|
  {
    hide OutputInv, LockInv, LogInv, ShapeInv, QueueInv, LoopInv, Flow;
    hide Decode, Fits, CanTransmit, CanRelease, CanAcquire;
    SourceIsPast(s, id0);
  }

  /** The message the loop is working on is not a running call's request. */
  lemma {:induction false} LoopKeepsArgs(s: Conn, id0: uint64)
    requires FlowInv(s) && LoopInv(s) && id0 in s.calls && !s.calls[id0].kind.Refused?
    ensures s.loop.Found? ==> s.loop.cell.src != s.calls[id0].src
    ensures s.loop.Refusing? && s.loop.id in s.calls ==> s.calls[s.loop.id].src != s.calls[id0].src
  {
    hide Flow, IsStreamFrame, ItemFor;
    if s.loop.Found? { StreamIsNoSource(s, s.loop.cell.src, id0); }
    if s.loop.Refusing? { SourcesDiffer(s, s.loop.id, id0); }
  }

  lemma {:induction false} OnlyArgs(s: Conn, s': Conn, n: nat)
    requires QueuesOwn(s) && s'.queues == s.queues && s'.calls.Keys == s.calls.Keys
    requires forall id :: id in s.calls ==> s'.calls[id].taken == s.calls[id].taken
    requires forall t :: t in s'.freed ==> t in s.freed || t == ArgsOf(n)
    ensures QueuesOwn(s')
  {
  }

  lemma {:induction false} ChunkTreesAre(q: seq<Cell>)
    ensures forall t :: t in ChunkTrees(q) <==> exists i :: 0 <= i < |q| && q[i].item.Chunk? && t == ResultOf(q[i].src)
  {
    if q != [] {
      ChunkTreesAre(q[1..]);
      forall t ensures t in ChunkTrees(q) <==> exists i :: 0 <= i < |q| && q[i].item.Chunk? && t == ResultOf(q[i].src) {
        if t in ChunkTrees(q[1..]) {
          var i :| 0 <= i < |q[1..]| && q[1..][i].item.Chunk? && t == ResultOf(q[1..][i].src);
          assert q[i + 1].item.Chunk?;
        }
        if i :| 0 <= i < |q| && q[i].item.Chunk? && t == ResultOf(q[i].src) {
          if i > 0 { assert q[1..][i - 1].item.Chunk?; }
        }
      }
    }
  }

  predicate Increasing(q: seq<Cell>) {
    forall i, j :: 0 <= i < j < |q| && q[i].item.Chunk? && q[j].item.Chunk? ==> q[i].src < q[j].src
  }

  lemma {:induction false} ChunkTreesDistinct(q: seq<Cell>)
    requires Increasing(q)
    ensures NoDup(ChunkTrees(q))
  {
    if q != [] {
      var tail := q[1..];
      assert Increasing(tail);
      ChunkTreesDistinct(tail);
      if q[0].item.Chunk? {
        ChunkTreesAre(tail);
        assert ResultOf(q[0].src) !in ChunkTrees(tail);
        FreeMore([ResultOf(q[0].src)], ChunkTrees(tail));
      }
    }
  }

  /** What is received, queued and pending for one call is in strictly increasing message order. */
  lemma {:induction false} AllIncreasing(s: Conn, id: uint64)
    requires id in s.calls && Flow(s, id) && id in s.queues
    ensures Increasing(s.calls[id].taken + s.queues[id] + Pending(s, id))
  {
    hide CellsFor, StrEq, Routed;
    var r := Routed(s, id);
    forall i, j | 0 <= i < j < |r| && r[i].item.Chunk? && r[j].item.Chunk? ensures r[i].src < r[j].src {
      RoutedDistinct(s, id, i, j);
    }
  }

  lemma {:induction false} SplitIncreasing(t: seq<Cell>, q: seq<Cell>, p: seq<Cell>)
    requires Increasing(t + q + p)
    ensures Increasing(q)
    ensures forall i, j :: 0 <= i < |t| && 0 <= j < |q| && t[i].item.Chunk? && q[j].item.Chunk? ==> t[i].src != q[j].src
    ensures forall i, j :: 0 <= i < |q| && 0 <= j < |p| && q[i].item.Chunk? && p[j].item.Chunk? ==> q[i].src != p[j].src
  {
    var all := t + q + p;
    assert forall i :: 0 <= i < |t| ==> t[i] == all[i];
    assert forall i :: 0 <= i < |q| ==> q[i] == all[|t| + i];
    assert forall i :: 0 <= i < |p| ==> p[i] == all[|t| + |q| + i];
  }

  /** `more` holds results of stream frames for `id0` only. */
  lemma {:induction false} OthersDiffer(s: Conn, id0: uint64, id: uint64, q: seq<Cell>)
    requires id in s.calls && id0 in s.calls && Flow(s, id) && Flow(s, id0) && id0 in s.queues && id != id0
    requires q == s.calls[id].taken || (id in s.queues && q == s.queues[id])
    requires CellsOwn(s.freed, q)
    ensures CellsOwn(s.freed + ChunkTrees(s.queues[id0]), q)
  {
    hide IsStreamFrame, ItemFor, Flow, ChunkTrees;
    HeldCells(s, id);
    HeldCells(s, id0);
    ChunkTreesAre(s.queues[id0]);
  }

  lemma {:induction false} TakenDiffers(s: Conn, id0: uint64)
    requires id0 in s.calls && Flow(s, id0) && id0 in s.queues && CellsOwn(s.freed, s.calls[id0].taken)
    ensures CellsOwn(s.freed + ChunkTrees(s.queues[id0]), s.calls[id0].taken)
  {
    hide Flow, ChunkTrees;
    AllIncreasing(s, id0);
    SplitIncreasing(s.calls[id0].taken, s.queues[id0], Pending(s, id0));
    ChunkTreesAre(s.queues[id0]);
  }

  lemma {:induction false} LoopDiffers(s: Conn, id0: uint64)
    requires Inv(s) && LoopOwns(s) && id0 in s.queues && id0 in s.calls
    ensures LoopOwns(s.(freed := s.freed + ChunkTrees(s.queues[id0])))
  {
    hide OutputInv, LockInv, LogInv, ShapeInv, ChunkTrees, CellsFor, StrEq, IsStreamFrame, ItemFor, Routed, Increasing;
    var q := s.queues[id0];
    ChunkTreesAre(q);
    assert Flow(s, id0);
    HeldCells(s, id0);
    if s.loop.Found? && s.loop.id == id0 {
      AllIncreasing(s, id0);
      SplitIncreasing(s.calls[id0].taken, q, Pending(s, id0));
      assert Pending(s, id0)[0] == s.loop.cell;
    }
    if s.loop.Refusing? {
      assert Flow(s, s.loop.id);
      RequestIsNoStream(s.input[s.calls[s.loop.id].src]);
    }
  }

  /** A streaming-input thread frees what its handler left in the queue (`stream_input_free`). */
  lemma {:induction false} RemoveQueueOwn(s: Conn, id0: uint64)
    requires Inv(s) && OwnInv(s) && Enabled(s, Remove(id0)) && HasInput(s.calls[id0].kind)
    ensures OwnInv(DoRemove(s, id0))
  {
    hide OutputInv, LockInv, LogInv, ShapeInv, Flow, LoopInv, CellsOwn, ChunkTrees, NoDup, Increasing, Pending;
    hide Decode, Fits, CanTransmit, CanRelease, CanAcquire;
    var s', q := DoRemove(s, id0), s.queues[id0];
    var more := ChunkTrees(q);
    AllIncreasing(s, id0);
    SplitIncreasing(s.calls[id0].taken, q, Pending(s, id0));
    ChunkTreesDistinct(q);
    QueueTreesAreResults(s, id0);
    FreeMore(s.freed, more);
    LoopDiffers(s, id0);
    TakenDiffers(s, id0);
    forall id | id in s.calls && id != id0
      ensures CellsOwn(s'.freed, s.calls[id].taken) && (id in s.queues ==> CellsOwn(s'.freed, s.queues[id]))
    {
      OthersDiffer(s, id0, id, s.calls[id].taken);
      if id in s.queues { OthersDiffer(s, id0, id, s.queues[id]); }
    }
  }

  lemma {:induction false} QueueTreesAreResults(s: Conn, id0: uint64)
    requires id0 in s.calls && id0 in s.queues && Flow(s, id0) && CellsOwn(s.freed, s.queues[id0])
    ensures forall t :: t in ChunkTrees(s.queues[id0]) ==> t.ResultOf? && t.n < |s.input| && t !in s.freed
  {
    hide Flow, ChunkTrees, IsStreamFrame, ItemFor;
    ChunkTreesAre(s.queues[id0]);
    HeldCells(s, id0);
  }

  // ---------------------------------------------------------------------------
  // A received message
  // ---------------------------------------------------------------------------

  /** Nobody holds a tree of message `n` yet, apart from a call it opens. */
  predicate Fresh(s: Conn, s': Conn, n: nat, more: seq<Tree>) {
    && |s.input| == n && |s'.input| == n + 1 && s'.freed == s.freed + more
    && (more == [] || more == [ResultOf(n)] || more == [ArgsOf(n), ResultOf(n)])
    && (forall id :: id in s.calls ==> s.calls[id].src < n)
    && (forall id :: id in s'.calls ==>
          (id in s.calls && s'.calls[id] == s.calls[id]) || (s'.calls[id].taken == [] && s'.calls[id].src == n && ArgsOf(n) !in more))
    && (forall id :: id in s'.queues ==> (id in s.queues && s'.queues[id] == s.queues[id]) || s'.queues[id] == [])
    && (s'.loop.Found? ==> more == [] && s'.loop.cell.src == n)
    && (s'.loop.Refusing? ==> more == [] && s'.loop.id in s'.calls && s'.calls[s'.loop.id].src == n)
  }

  lemma {:induction false} NewMessageOwn(s: Conn, s': Conn, n: nat, more: seq<Tree>)
    requires OwnInv(s) && Fresh(s, s', n, more) && NoChunkFrom(s, n)
    ensures OwnInv(s')
  {
    hide CellsOwn;
    assert ArgsOf(n) !in s.freed && ResultOf(n) !in s.freed;
    FreeMore(s.freed, more);
    assert forall t :: t in s'.freed <==> t in s.freed || t in more;
    forall id | id in s'.queues ensures CellsOwn(s'.freed, s'.queues[id]) {
      if id in s.queues && s'.queues[id] == s.queues[id] { NewTrees(s, s.queues[id], s'.freed, n); } else { EmptyOwn(s'.freed); }
    }
    forall id | id in s'.calls ensures CellsOwn(s'.freed, s'.calls[id].taken) {
      if id in s.calls && s'.calls[id] == s.calls[id] { NewTrees(s, s.calls[id].taken, s'.freed, n); } else { EmptyOwn(s'.freed); }
    }
  }

  /** All holders hold trees of earlier messages. */
  lemma {:induction false} RouteOwn(s: Conn, m: Message)
    requires Inv(s) && OwnInv(s) && s.loop.Reading? && (StrEq(m.msgType, REQUEST) ==> m.id !in s.calls)
    ensures OwnInv(Route(s, m))
  {
    hide OutputInv, LockInv, LogInv, ShapeInv, LoopInv, Flow, StrEq, IsStreamFrame, ItemFor, Judge, OwnInv, NoChunkFrom, QueueInv;
    var n := |s.input|;
    RequestHasNoChunk(s, n);
    forall id | id in s.calls ensures s.calls[id].src < n { SourceIsPast(s, id); }
    var s' := Route(s, m);
    hide FlowInv;
    var more := if IsStreamFrame(m) then (if m.id in s.queues then [] else [ArgsOf(n), ResultOf(n)])
                else if !StrEq(m.msgType, REQUEST) then [ArgsOf(n), ResultOf(n)]
                else if Judge(s.registry, m).Accept? then [ResultOf(n)] else [];
    assert s.freed + [] == s.freed;
    NewMessageOwn(s, s', n, more);
  }

  lemma {:induction false} SourceIsPast(s: Conn, id: uint64)
    requires id in s.calls && Flow(s, id)
    ensures s.calls[id].src < |s.input|
  {
    hide StrEq, Routed;
  }

  lemma {:induction false} EmptyOwn(freed: seq<Tree>)
    ensures CellsOwn(freed, [])
  {
  }

  lemma {:induction false} NewTrees(s: Conn, q: seq<Cell>, freed: seq<Tree>, n: nat)
    requires CellsOwn(s.freed, q) && forall t :: t in freed ==> t in s.freed || t == ArgsOf(n) || t == ResultOf(n)
    requires forall i :: 0 <= i < |q| && q[i].item.Chunk? ==> q[i].src != n
    ensures CellsOwn(freed, q)
  {
  }

  // ---------------------------------------------------------------------------
  // All actions, all runs
  // ---------------------------------------------------------------------------

  lemma {:induction false} StepOwn(s: Conn, a: Action)
    requires Inv(s) && OwnInv(s) && Enabled(s, a)
    ensures OwnInv(Next(s, a))
  {
    hide Inv, OwnInv, Decode, DoPush, DoCloseOne, DoResume, DoRecv, DoReturn, DoSend, DoRemove, Route;
    hide CanTransmit, CanRelease, CanAcquire, Fits;
    match a
    case Receive(p) => if Decode(p).Some? { RouteOwn(s, Decode(p).value); }
    case Push => PushOwn(s);
    case CloseOne(id) => CloseOneOwn(s, id);
    case Resume => ResumeOwn(s);
    case Recv(id) => RecvOwn(s, id);
    case Remove(id) => if HasInput(s.calls[id].kind) { RemoveQueueOwn(s, id); } else { RemoveArgsOwn(s, id); }
    case _ => QuietOwn(s, a);
  }

  lemma {:induction false} RunOwn(s: Conn, actions: seq<Action>)
    requires Inv(s) && OwnInv(s) && Possible(s, actions)
    ensures OwnInv(Server.After(s, actions))
    decreases |actions|
  {
    hide Inv, OwnInv, Enabled, Next;
    if actions != [] {
      StepKeeps(s, actions[0]);
      StepOwn(s, actions[0]);
      RunOwn(Next(s, actions[0]), actions[1..]);
    }
  }

  lemma {:induction false} InitOwn(registry: seq<Handler>)
    ensures OwnInv(Init(registry))
  {
  }

  /** On every run no tree is freed twice, and no tree still held by the loop, a context, a queue or a handler is freed. */
  lemma {:induction false} FreedAtMostOnce(registry: seq<Handler>, s: Conn)
    requires Reachable(registry, s)
    ensures NoDup(s.freed)
    ensures LoopOwns(s) && ContextsOwn(s) && QueuesOwn(s)
  {
    hide Reachable, NoDup, LoopOwns, ContextsOwn, QueuesOwn, Past;
    ReachableOwn(registry, s);
  }

  lemma {:induction false} ReachableOwn(registry: seq<Handler>, s: Conn)
    requires Reachable(registry, s)
    ensures OwnInv(s)
  {
    hide Inv, Possible, OwnInv;
    var actions :| Possible(Init(registry), actions) && Server.After(Init(registry), actions) == s;
    InitInv(registry);
    InitOwn(registry);
    RunOwn(Init(registry), actions);
  }

  // ---------------------------------------------------------------------------
  // One owner
  // ---------------------------------------------------------------------------

  /** Who can hold a decoded tree: the read loop, a dispatch context, a queue node, a handler that has received it. */
  datatype Owner = InLoop | InContext(id: uint64) | InNode(id: uint64, i: nat) | InHandler(id: uint64, i: nat)

  /** The two trees of a message. */
  predicate TreeOf(t: Tree, n: nat) {
    t == ArgsOf(n) || t == ResultOf(n)
  }

  predicate HoldsChunk(q: seq<Cell>, i: nat, t: Tree) {
    i < |q| && q[i].item.Chunk? && t == ResultOf(q[i].src)
  }

  predicate Owns(s: Conn, o: Owner, t: Tree) {
    match o
    case InLoop =>
      || (s.loop.Found? && TreeOf(t, s.loop.cell.src))
      || (s.loop.Refusing? && s.loop.id in s.calls && TreeOf(t, s.calls[s.loop.id].src))
    case InContext(id) => id in s.calls && ArgsHeld(s.calls[id]) && t == ArgsOf(s.calls[id].src)
    case InNode(id, i) => id in s.queues && HoldsChunk(s.queues[id], i, t)
    case InHandler(id, i) => id in s.calls && HoldsChunk(s.calls[id].taken, i, t)
  }

  /** The tree's message: a request of the context or the refusal, a stream frame otherwise. */
  predicate Provenance(s: Conn, o: Owner, t: Tree) {
    && t.n < |s.input|
    && (o.InContext? ==> o.id in s.calls && t == ArgsOf(s.calls[o.id].src) && !s.calls[o.id].kind.Refused?)
    && (o.InContext? ==> !IsStreamFrame(s.input[t.n]))
    && (o.InNode? || o.InHandler? ==> t.ResultOf? && o.id in s.calls && IsStreamFrame(s.input[t.n]) && s.input[t.n].id == o.id)
    && (o.InLoop? && s.loop.Found? ==> t.n + 1 == |s.input| && IsStreamFrame(s.input[t.n]) && s.input[t.n].id == s.loop.id)
    && (o.InLoop? && !s.loop.Found? ==>
          s.loop.Refusing? && s.loop.id in s.calls && t.n == s.calls[s.loop.id].src && s.calls[s.loop.id].kind.Refused?
          && !IsStreamFrame(s.input[t.n]))
  }

  lemma {:induction false} RequestSource(s: Conn, id: uint64)
    requires id in s.calls && Flow(s, id)
    ensures s.calls[id].src < |s.input| && !IsStreamFrame(s.input[s.calls[id].src])
  {
    hide StrEq, IsStreamFrame, Routed, Pending;
    RequestIsNoStream(s.input[s.calls[id].src]);
  }

  lemma {:induction false} Traced(s: Conn, o: Owner, t: Tree)
    requires FlowInv(s) && LoopInv(s) && QueueInv(s) && Owns(s, o, t)
    ensures Provenance(s, o, t)
  {
    hide Flow, IsStreamFrame, ItemFor;
    match o
    case InLoop => if s.loop.Refusing? { RequestSource(s, s.loop.id); }
    case InContext(id) => RequestSource(s, id);
    case InNode(id, _) => HeldCells(s, id);
    case InHandler(id, _) => HeldCells(s, id);
  }

  lemma {:induction false} TakenIncreasing(s: Conn, id: uint64, i: nat, j: nat)
    requires id in s.calls && Flow(s, id) && i < j < |s.calls[id].taken|
    requires s.calls[id].taken[i].item.Chunk? && s.calls[id].taken[j].item.Chunk?
    ensures s.calls[id].taken[i].src < s.calls[id].taken[j].src
  {
    hide CellsFor, StrEq, Routed, Pending;
    RoutedDistinct(s, id, i, j);
  }

  /** Within one call every chunk is held once. */
  lemma {:induction false} OncePerCall(s: Conn, o1: Owner, o2: Owner, t: Tree)
    requires FlowInv(s) && QueueInv(s) && Owns(s, o1, t) && Owns(s, o2, t)
    requires (o1.InNode? || o1.InHandler?) && (o2.InNode? || o2.InHandler?) && o1.id == o2.id
    ensures o1 == o2
  {
    hide Flow, Increasing, Pending;
    var id := o1.id;
    if o1.InHandler? && o2.InHandler? {
      if o1.i < o2.i { TakenIncreasing(s, id, o1.i, o2.i); } else if o2.i < o1.i { TakenIncreasing(s, id, o2.i, o1.i); }
    } else {
      AllIncreasing(s, id);
      SplitIncreasing(s.calls[id].taken, s.queues[id], Pending(s, id));
      NodesDiffer(s.queues[id]);
    }
  }

  lemma {:induction false} NodesDiffer(q: seq<Cell>)
    requires Increasing(q)
    ensures forall i, j :: 0 <= i < |q| && 0 <= j < |q| && q[i].item.Chunk? && q[j].item.Chunk? && q[i].src == q[j].src ==> i == j
  {
  }

  /** What the loop holds is held by nobody else. */
  lemma {:induction false} LoopAlone(s: Conn, o: Owner, t: Tree)
    requires Inv(s) && RaceInv(s) && Owns(s, InLoop, t) && Owns(s, o, t)
    ensures o == InLoop
  {
    hide OutputInv, LockInv, LogInv, ShapeInv, Flow, IsStreamFrame, ItemFor, CellsFor, Provenance, Owns;
    if o != InLoop {
      Traced(s, InLoop, t);
      Traced(s, o, t);
      if o.InContext? {
        ContextNotLoop(s, o.id, t);
      } else {
        assert s.loop.Found? && s.loop.id == o.id by { FrameHolder(s, o, t); }
        assert t.n + 1 == |s.input| by { FrameHolder(s, o, t); }
        CellsBefore(s, o, t);
      }
    }
  }

  lemma {:induction false} ContextNotLoop(s: Conn, id: uint64, t: Tree)
    requires FlowInv(s)
    ensures !(Provenance(s, InLoop, t) && Provenance(s, InContext(id), t))
  {
    hide Flow, IsStreamFrame;
    if s.loop.Refusing? && s.loop.id in s.calls && id in s.calls && s.loop.id != id { SourcesDiffer(s, id, s.loop.id); }
  }

  lemma {:induction false} FrameHolder(s: Conn, o: Owner, t: Tree)
    requires Provenance(s, InLoop, t) && Provenance(s, o, t) && (o.InNode? || o.InHandler?)
    ensures s.loop.Found? && s.loop.id == o.id && t.n + 1 == |s.input|
  {
    hide IsStreamFrame;
  }

  /** While the loop holds a frame, its call holds only earlier ones. */
  lemma {:induction false} CellsBefore(s: Conn, o: Owner, t: Tree)
    requires Inv(s) && RaceInv(s) && s.loop.Found? && (o.InNode? || o.InHandler?) && o.id == s.loop.id && Owns(s, o, t)
    ensures t.n + 1 < |s.input|
  {
    hide OutputInv, LockInv, LogInv, ShapeInv, LoopInv, Flow, IsStreamFrame, ItemFor, CellsFor;
    var id, n := s.loop.id, |s.input| - 1;
    var k := if o.InHandler? then o.i else |s.calls[id].taken| + o.i;
    if o.InNode? {
      QueuedBefore(s, id);
      assert (s.calls[id].taken + s.queues[id])[k] == s.queues[id][o.i];
    }
    CellsAre(id, s.input[..n], s.calls[id].src + 1, k);
  }

  lemma {:induction false} Unique(s: Conn, o1: Owner, o2: Owner, t: Tree)
    requires Inv(s) && RaceInv(s) && Owns(s, o1, t) && Owns(s, o2, t)
    ensures o1 == o2
  {
    hide OutputInv, LockInv, LogInv, ShapeInv, RaceInv, Flow, IsStreamFrame, Owns, FlowInv, QueueInv, LoopInv;
    if o1 == InLoop {
      LoopAlone(s, o2, t);
    } else if o2 == InLoop {
      LoopAlone(s, o1, t);
    } else {
      Traced(s, o1, t);
      Traced(s, o2, t);
      if o1.InContext? {
        if o1.id != o2.id && o2.InContext? { SourcesDiffer(s, o1.id, o2.id); }
      } else if !o2.InContext? {
        OncePerCall(s, o1, o2, t);
      }
    }
  }

  lemma {:induction false} OwnedIsLive(s: Conn, o: Owner, t: Tree)
    requires OwnInv(s) && Owns(s, o, t)
    ensures t !in s.freed
  {
    match o
    case InLoop =>
    case InContext(id) =>
    case InNode(id, i) => assert CellsOwn(s.freed, s.queues[id]);
    case InHandler(id, i) => assert CellsOwn(s.freed, s.calls[id].taken);
  }

  /**
   * Single ownership: in every reachable state each decoded tree has at most one owner among
   * the read loop, all contexts, all queue nodes and all handlers, and no owned tree is freed.
   */
  lemma {:induction false} OneOwner(registry: seq<Handler>, s: Conn, o1: Owner, o2: Owner, t: Tree)
    requires Reachable(registry, s) && Owns(s, o1, t) && Owns(s, o2, t)
    ensures o1 == o2
    ensures t !in s.freed
  {
    hide Reachable, Inv, RaceInv, Owns, NoDup, LoopOwns, ContextsOwn, QueuesOwn;
    ReachableRace(registry, s);
    Unique(s, o1, o2, t);
    ReachableOwn(registry, s);
    hide OwnInv;
    OwnedIsLive(s, o1, t);
  }
}
