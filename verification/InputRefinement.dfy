/**
 * The heap's queues refine the connection state machine: while `Inputs` represents the
 * machine's queues, each of its operations leaves it representing the machine's queues after
 * the corresponding step, and returns what that step hands to the handler or frees.
 */
module InputRefinement {
  import opened Bytes
  import opened Mpack
  import opened Message
  import opened StreamInput
  import WriteLock
  import opened Server
  import opened ServerInv
  import opened InputQueues
  import Ownership

  /** The machine's queues, without the numbers of the messages their items came from. */
  function Abstract(queues: map<uint64, seq<Cell>>): map<uint64, seq<Item>> {
    map id | id in queues :: Items(queues[id])
  }

  lemma {:induction false} ItemsAppend(q: seq<Cell>, c: Cell)
    ensures Items(q + [c]) == Items(q) + [c.item]
  {
  }

  /** The machine's push: that queue grows by the found item, no other changes. */
  lemma {:induction false} PushRefines(s: Conn)
    requires Enabled(s, Push)
    ensures s.loop.Found? && s.loop.id in Abstract(s.queues)
    ensures Abstract(DoPush(s).queues) == Abstract(s.queues)[s.loop.id := Abstract(s.queues)[s.loop.id] + [s.loop.cell.item]]
  {
    hide Decode, WriteLock.Fits, WriteLock.CanTransmit, WriteLock.CanRelease, WriteLock.CanAcquire;
    ItemsAppend(s.queues[s.loop.id], s.loop.cell);
  }

  /** The machine's receive: the handler gets the first item of its own queue. */
  lemma {:induction false} RecvRefines(s: Conn, id: uint64)
    requires Enabled(s, Recv(id))
    ensures id in Abstract(s.queues) && id in s.calls
    ensures var items := Abstract(s.queues)[id];
            && First(items).Some?
            && Items(DoRecv(s, id).calls[id].taken) == Items(s.calls[id].taken) + [First(items).value]
            && Abstract(DoRecv(s, id).queues) == Abstract(s.queues)[id := Rest(items)]
  {
    hide Decode, WriteLock.Fits, WriteLock.CanTransmit, WriteLock.CanRelease, WriteLock.CanAcquire;
    var q := s.queues[id];
    assert Items(q)[1..] == Items(q[1..]);
  }

  /** The machine's registration when a streaming-input call starts. */
  lemma {:induction false} StartRefines(s: Conn, m: Message, n: nat, kind: Kind)
    ensures Abstract(Start(s, m, n, kind).queues) == if HasInput(kind) then Abstract(s.queues)[m.id := []] else Abstract(s.queues)
  {
  }

  lemma {:induction false} RemoveRefines(s: Conn, id: uint64)
    requires Enabled(s, Remove(id)) && HasInput(s.calls[id].kind)
    ensures Abstract(DoRemove(s, id).queues) == Abstract(s.queues) - {id}
  {
    hide Decode, WriteLock.Fits, WriteLock.CanTransmit, WriteLock.CanRelease, WriteLock.CanAcquire, ChunkTrees;
  }

  /** One step of the closing loop. */
  lemma {:induction false} CloseOneRefines(s: Conn, id: uint64)
    requires Enabled(s, CloseOne(id))
    ensures s.loop.Closing? && id in s.loop.todo && id in Abstract(s.queues)
    ensures Abstract(DoCloseOne(s, id).queues) == Abstract(s.queues)[id := Abstract(s.queues)[id] + [End]]
    ensures DoCloseOne(s, id).loop == Closing(s.loop.todo - {id}) && DoCloseOne(s, id).queues.Keys == s.queues.Keys
  {
    hide Decode, WriteLock.Fits, WriteLock.CanTransmit, WriteLock.CanRelease, WriteLock.CanAcquire;
    ItemsAppend(s.queues[id], Cell(End, |s.input|));
  }

  /** An end mark after each of the queues still to do. */
  function WithEnds(view: map<uint64, seq<Item>>, todo: set<uint64>): map<uint64, seq<Item>> {
    map id | id in view :: view[id] + if id in todo then [End] else []
  }

  predicate OnlyCloses(actions: seq<Action>) {
    forall i :: 0 <= i < |actions| ==> actions[i].CloseOne?
  }

  /** The closing loop's steps, in whatever order, until none is left to do. */
  lemma {:induction false} CloseRefines(s: Conn, actions: seq<Action>)
    requires s.loop.Closing? && Possible(s, actions) && OnlyCloses(actions)
    requires Server.After(s, actions).loop == Closing({})
    ensures Abstract(Server.After(s, actions).queues) == WithEnds(Abstract(s.queues), s.loop.todo)
    decreases |actions|
  {
    hide Enabled, Next, Abstract;
    if actions == [] {
      assert forall id :: id in Abstract(s.queues) ==> Abstract(s.queues)[id] + [] == Abstract(s.queues)[id];
    } else {
      var id := actions[0].id;
      CloseOneRefines(s, id);
      NextClose(s, id);
      var s1 := Next(s, actions[0]);
      CloseRefines(s1, actions[1..]);
      EndsStep(Abstract(s.queues), s.loop.todo, id);
    }
  }

  lemma {:induction false} NextClose(s: Conn, id: uint64)
    requires Enabled(s, CloseOne(id))
    ensures Next(s, CloseOne(id)) == DoCloseOne(s, id)
  {
    hide Enabled;
  }

  lemma {:induction false} EndsStep(view: map<uint64, seq<Item>>, todo: set<uint64>, id: uint64)
    requires id in view && id in todo
    ensures WithEnds(view[id := view[id] + [End]], todo - {id}) == WithEnds(view, todo)
  {
    assert view[id] + [End] + [] == view[id] + [End];
  }

  /** The i-th freed value is the result of the message that the i-th freed tree belongs to. */
  lemma {:induction false} FreedValues(q: seq<Cell>, input: seq<Message>)
    requires forall i :: 0 <= i < |q| && q[i].item.Chunk? ==> q[i].src < |input| && q[i].item.value == input[q[i].src].result
    ensures |Chunks(Items(q))| == |ChunkTrees(q)|
    ensures forall i :: 0 <= i < |ChunkTrees(q)| ==>
      ChunkTrees(q)[i].ResultOf? && ChunkTrees(q)[i].n < |input| && Chunks(Items(q))[i] == input[ChunkTrees(q)[i].n].result
  {
    if q != [] {
      FreedValues(q[1..], input);
      assert Items(q)[1..] == Items(q[1..]);
    }
  }

  lemma {:induction false} QueuedResults(s: Conn, id: uint64)
    requires Inv(s) && id in s.queues
    ensures forall i :: 0 <= i < |s.queues[id]| && s.queues[id][i].item.Chunk? ==>
      s.queues[id][i].src < |s.input| && s.queues[id][i].item.value == s.input[s.queues[id][i].src].result
  {
    hide WriteLock.OutputInv, LockInv, LogInv, ShapeInv, LoopInv, Flow, StrEq;
    Ownership.HeldCells(s, id);
    assert Ownership.AllBehind(s, id, s.queues[id]);
  }

  // ---------------------------------------------------------------------------
  // Heap and machine, side by side
  // ---------------------------------------------------------------------------

  /** The heap holds the machine's queues. */
  ghost predicate Represents(inputs: Inputs, queues: map<uint64, seq<Cell>>)
    reads inputs, inputs.table, inputs.table.inputs, inputs.repr
  {
    inputs.Valid() && inputs.Contents() == Abstract(queues)
  }

  /** `stream_input_push` on the queue the loop has found. */
  method PushStep(inputs: Inputs, s: Conn)
    requires Represents(inputs, s.queues) && Enabled(s, Push)
    modifies inputs, inputs.repr
    ensures Represents(inputs, DoPush(s).queues)
  {
    PushRefines(s);
    hide Enabled, Inputs.Valid, Abstract;
    inputs.ContentsKeys();
    var item := s.loop.cell.item;
    var found := inputs.Push(s.loop.id, if item.Chunk? then item.value else Null, item.End?);
  }

  /** `conn_register_input` when a call with stream input starts. */
  method StartStep(inputs: Inputs, s: Conn, m: Message, n: nat, kind: Kind)
    requires Represents(inputs, s.queues) && HasInput(kind) && m.id !in s.queues
    modifies inputs, inputs.table, inputs.table.inputs
    ensures Represents(inputs, Start(s, m, n, kind).queues)
  {
    StartRefines(s, m, n, kind);
    assert m.id !in Abstract(s.queues);
    hide Inputs.Valid, Abstract;
    inputs.ContentsKeys();
    inputs.Register(m.id);
  }

  /** `stream_input_recv` by a handler: it gets the item the machine's step takes. */
  method RecvStep(inputs: Inputs, s: Conn, id: uint64) returns (item: Option<Item>)
    requires Represents(inputs, s.queues) && Enabled(s, Recv(id))
    modifies inputs.repr
    ensures Represents(inputs, DoRecv(s, id).queues)
    ensures item.Some? && id in s.calls && Items(DoRecv(s, id).calls[id].taken) == Items(s.calls[id].taken) + [item.value]
  {
    RecvRefines(s, id);
    hide Enabled, Abstract, Inputs.Valid;
    inputs.ContentsKeys();
    var q := inputs.Find(id);
    inputs.QueueIsHeld(id);
    item := inputs.Recv(id, q);
  }

  /** `conn_remove_input` by a thread with stream input: it frees exactly the machine's trees. */
  method RemoveStep(inputs: Inputs, s: Conn, id: uint64) returns (freed: seq<Value>)
    requires Represents(inputs, s.queues) && Inv(s) && Enabled(s, Remove(id)) && HasInput(s.calls[id].kind)
    modifies inputs, inputs.table, inputs.table.inputs
    ensures Represents(inputs, DoRemove(s, id).queues)
    ensures id in s.queues && |freed| == |ChunkTrees(s.queues[id])|
    ensures forall i :: 0 <= i < |freed| ==> ChunkTrees(s.queues[id])[i].ResultOf? && ChunkTrees(s.queues[id])[i].n < |s.input|
    ensures forall i :: 0 <= i < |freed| ==> freed[i] == s.input[ChunkTrees(s.queues[id])[i].n].result
  {
    RemoveRefines(s, id);
    StillQueued(s, id);
    QueuedResults(s, id);
    FreedValues(s.queues[id], s.input);
    assert Abstract(s.queues)[id] == Items(s.queues[id]);
    hide Enabled, Abstract, Inputs.Valid, Inv, ChunkTrees, Chunks;
    freed := inputs.Remove(id);
  }

  lemma {:induction false} StillQueued(s: Conn, id: uint64)
    requires Inv(s) && Enabled(s, Remove(id)) && HasInput(s.calls[id].kind)
    ensures id in s.queues
  {
    hide WriteLock.OutputInv, LockInv, LogInv, ShapeInv, LoopInv, FlowInv;
    hide Decode, WriteLock.Fits, WriteLock.CanTransmit, WriteLock.CanRelease, WriteLock.CanAcquire;
  }

  /** The loop after the last read, against all of the machine's closing steps, in whatever order they are taken. */
  method CloseStep(inputs: Inputs, s: Conn, ghost actions: seq<Action>)
    requires Represents(inputs, s.queues) && s.loop.Closing? && s.loop.todo == s.queues.Keys
    requires Possible(s, actions) && OnlyCloses(actions) && Server.After(s, actions).loop == Closing({})
    modifies inputs, inputs.repr
    ensures Represents(inputs, Server.After(s, actions).queues)
  {
    CloseRefines(s, actions);
    assert WithEnds(Abstract(s.queues), s.loop.todo) == map id | id in Abstract(s.queues) :: Abstract(s.queues)[id] + [End];
    hide Inputs.Valid, Abstract, Possible, Server.After;
    inputs.CloseAll();
  }
}
