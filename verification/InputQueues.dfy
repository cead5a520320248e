/**
 * The table and the linked queues together, as they stand in the heap: `conn_state_t`'s
 * inputs. The abstract value is a map from ids to item sequences, the `queues` of the
 * connection state machine; each operation changes one entry of it and no other.
 */
module InputQueues {
  import opened Bytes
  import opened Mpack
  import opened StreamInput
  import opened InputTable

  type Queues = map<uint64, StreamInput>

  // ---------------------------------------------------------------------------
  // The table's entries and the map
  // ---------------------------------------------------------------------------

  /** The entries are exactly the queues, under their ids. */
  ghost predicate Indexes(es: seq<StreamInput>, qs: Queues) {
    && Distinct(es)
    && forall id :: Lookup(es, id) == if id in qs then Some(qs[id]) else None
  }

  lemma {:induction false} IndexInsert(es: seq<StreamInput>, qs: Queues, q: StreamInput)
    requires Indexes(es, qs) && q.id !in qs
    ensures Indexes(es + [q], qs[q.id := q])
  {
    hide Distinct, Lookup;
    assert Lookup(es, q.id).None?;
    forall k ensures Lookup(es + [q], k) == if k in qs[q.id := q] then Some(qs[q.id := q][k]) else None {
      RegisterIsInsert(es, q, k);
    }
    RegisterIsInsert(es, q, q.id);
  }

  lemma {:induction false} IndexRemove(es: seq<StreamInput>, qs: Queues, id: uint64)
    requires Indexes(es, qs)
    ensures Indexes(SwapRemove(es, id), qs - {id})
  {
    hide Distinct, Lookup, SwapRemove;
    forall k ensures Lookup(SwapRemove(es, id), k) == if k in qs - {id} then Some((qs - {id})[k]) else None {
      RemoveIsDelete(es, id, k);
    }
    RemoveIsDelete(es, id, id);
  }

  // ---------------------------------------------------------------------------
  // Queues that share nothing
  // ---------------------------------------------------------------------------

  ghost predicate Held(q: StreamInput, repr: set<object>)
    reads q
  {
    q in repr && forall n :: n in q.nodes ==> n in repr
  }

  ghost predicate Apart(p: StreamInput, q: StreamInput)
    reads p, q
  {
    forall n :: n in p.nodes ==> n !in q.nodes
  }

  /** Every queue is a proper list of its own nodes. */
  ghost predicate Separate(qs: Queues, repr: set<object>)
    reads repr
  {
    && (forall id :: id in qs ==> qs[id] in repr && qs[id].id == id)
    && (forall id :: id in qs ==> Held(qs[id], repr))
    && (forall id :: id in qs ==> qs[id].Valid())
    && (forall a, b :: a in qs && b in qs && a != b ==> Apart(qs[a], qs[b]))
  }

  ghost function View(qs: Queues, repr: set<object>): map<uint64, seq<Item>>
    reads repr
    requires Separate(qs, repr)
  {
    map id | id in qs :: qs[id].Contents()
  }

  lemma {:induction false} SeparateInsert(qs: Queues, repr: set<object>, q: StreamInput, repr': set<object>)
    requires Separate(qs, repr) && q.id !in qs && q.Valid() && q.nodes == [] && repr + {q} <= repr'
    ensures Separate(qs[q.id := q], repr')
    ensures View(qs[q.id := q], repr') == View(qs, repr)[q.id := q.Contents()]
  {
    hide StreamInput.Valid, StreamInput.Contents;
  }

  lemma {:induction false} SeparateRemove(qs: Queues, repr: set<object>, id: uint64)
    requires Separate(qs, repr)
    ensures Separate(qs - {id}, repr)
    ensures View(qs - {id}, repr) == View(qs, repr) - {id}
  {
    hide StreamInput.Valid, StreamInput.Contents, Held, Apart;
  }

  /** A queue whose object and nodes are untouched is as it was. */
  twostate lemma {:induction false} Kept(q: StreamInput)
    requires old(q.Valid()) && unchanged(q) && forall n :: n in old(q.nodes) ==> unchanged(n)
    ensures q.Valid() && q.Contents() == old(q.Contents()) && q.nodes == old(q.nodes)
  {
    forall i | 0 <= i < |q.nodes|
      ensures q.nodes[i].next == old(q.nodes[i].next) && ItemOf(q.nodes[i]) == old(ItemOf(q.nodes[i]))
    {
      assert q.nodes[i] in old(q.nodes);
    }
  }

  lemma {:induction false} QueueHeld(qs: Queues, repr: set<object>, id: uint64)
    requires Separate(qs, repr) && id in qs
    ensures qs[id] in repr && forall n :: n in qs[id].nodes ==> n in repr
    ensures id in View(qs, repr)
  {
    hide StreamInput.Valid, StreamInput.Contents;
    assert Held(qs[id], repr);
  }

  /** Nodes that were there, or that nobody held. */
  predicate From(now: seq<ChunkNode>, was: seq<ChunkNode>, held: set<object>) {
    forall n :: n in now ==> n in was || n !in held
  }

  /** Which nodes belonged to whom. */
  ghost function NodesOf(qs: Queues): map<uint64, seq<ChunkNode>>
    reads qs.Values
  {
    map id | id in qs :: assert qs[id] in qs.Values; qs[id].nodes
  }

  predicate Partition(was: map<uint64, seq<ChunkNode>>, held: set<object>) {
    && (forall id, n :: id in was && n in was[id] ==> n in held)
    && (forall a, b, n :: a in was && b in was && a != b && n in was[a] ==> n !in was[b])
  }

  lemma {:induction false} WasPartition(qs: Queues, repr: set<object>)
    requires Separate(qs, repr)
    ensures Partition(NodesOf(qs), repr) && NodesOf(qs).Keys == qs.Keys && View(qs, repr).Keys == qs.Keys
    ensures forall id :: id in qs ==> NodesOf(qs)[id] == qs[id].nodes && View(qs, repr)[id] == qs[id].Contents()
    ensures forall id :: id in qs ==> qs[id] in repr && qs[id].id == id
  {
    hide StreamInput.Valid;
    forall a, b, n | a in qs && b in qs && a != b && n in qs[a].nodes ensures n !in qs[b].nodes { assert Apart(qs[a], qs[b]); }
    forall id, n | id in qs && n in qs[id].nodes ensures n in repr { assert Held(qs[id], repr); }
  }

  /** One queue may have changed its nodes for new ones; then all are still separate. */
  lemma {:induction false} StillSeparate(
    qs: Queues, repr: set<object>, was: map<uint64, seq<ChunkNode>>, held: set<object>, view: map<uint64, seq<Item>>, id: uint64)
    requires Partition(was, held) && was.Keys == qs.Keys && view.Keys == qs.Keys && held <= repr
    requires forall k :: k in qs ==> qs[k] in repr && qs[k].id == k && qs[k].Valid()
    requires forall k :: k in qs && k != id ==> qs[k].nodes == was[k]
    requires id in qs ==> From(qs[id].nodes, was[id], held) && forall n :: n in qs[id].nodes ==> n in repr
    requires forall k :: k in qs && k != id ==> qs[k].Contents() == view[k]
    ensures Separate(qs, repr) && View(qs, repr) == if id in qs then view[id := qs[id].Contents()] else view
  {
    hide StreamInput.Valid, StreamInput.Contents;
    forall k | k in qs ensures Held(qs[k], repr) {
    }
    forall a, b | a in qs && b in qs && a != b ensures Apart(qs[a], qs[b]) {
    }
  }

  // ---------------------------------------------------------------------------
  // The connection's inputs
  // ---------------------------------------------------------------------------

  class Inputs {
    const table: InputTable
    ghost var queues: Queues
    ghost var repr: set<object>

    ghost predicate Valid()
      reads this, table, table.inputs, repr
    {
      && table.Valid() && Indexes(table.Entries(), queues) && Separate(queues, repr)
      && table !in repr && table.inputs !in repr && this !in repr
    }

    /** The queues by id, as values. */
    ghost function Contents(): map<uint64, seq<Item>>
      reads this, table, table.inputs, repr
      requires Valid()
    {
      View(queues, repr)
    }

    constructor ()
      ensures Valid() && fresh(table) && fresh(table.inputs) && fresh(repr) && Contents() == map[]
    {
      table := new InputTable();
      queues, repr := map[], {};
    }

    lemma {:induction false} ContentsKeys()
      requires Valid()
      ensures Contents().Keys == queues.Keys
    {
      hide Indexes, Separate, View;
      ViewKeys(queues, repr);
    }

    lemma {:induction false} QueueIsHeld(id: uint64)
      requires Valid() && id in queues
      ensures queues[id] in repr && id in Contents()
    {
      hide Indexes, Separate, View;
      QueueHeld(queues, repr, id);
    }

    /** The other queues are as they were. */
    twostate lemma {:induction false} OthersKept(id: uint64)
      requires old(Separate(queues, repr)) && queues == old(queues)
      requires forall k :: k in queues && k != id ==> unchanged(queues[k])
      requires forall k, n :: k in queues && k != id && n in old(queues[k].nodes) ==> unchanged(n)
      ensures forall k :: k in queues && k != id ==>
        queues[k].Valid() && queues[k].nodes == old(queues[k].nodes) && queues[k].Contents() == old(queues[k].Contents())
    {
      forall k | k in queues && k != id
        ensures queues[k].Valid() && queues[k].nodes == old(queues[k].nodes) && queues[k].Contents() == old(queues[k].Contents())
      {
        Kept(queues[k]);
      }
    }

    /** The table's part of a registration; no queue is touched. */
    method AddEntry(id: uint64) returns (q: StreamInput)
      requires Valid() && id !in queues
      modifies table, table.inputs
      ensures table.Valid() && (table.inputs == old(table.inputs) || fresh(table.inputs))
      ensures fresh(q) && q.id == id && q.Valid() && q.nodes == [] && q.Contents() == []
      ensures Indexes(table.Entries(), queues[id := q])
      ensures forall k :: k in queues ==>
        queues[k].Valid() && queues[k].nodes == old(queues[k].nodes) && queues[k].Contents() == old(queues[k].Contents())
    {
      ghost var es := table.Entries();
      q := table.Register(id);
      OthersKept(id);
      assert |q.Contents()| == |q.nodes|;
      hide StreamInput.Valid, StreamInput.Contents, Indexes, Separate;
      IndexInsert(es, queues, q);
    }

    /** `conn_register_input` on an id that is not registered. */
    method Register(id: uint64)
      requires Valid() && id !in queues
      modifies this, table, table.inputs
      ensures Valid() && fresh(repr - old(repr)) && Contents() == old(Contents())[id := []]
    {
      hide StreamInput.Valid, StreamInput.Contents, Indexes, Separate, View, NodesOf, Partition;
      ghost var was, view := NodesOf(queues), View(queues, repr);
      WasPartition(queues, repr);
      var q := AddEntry(id);
      StillSeparate(queues, repr, was, repr, view, id);
      SeparateInsert(queues, repr, q, repr + {q});
      queues := queues[id := q];
      repr := repr + {q};
    }

    /** The queue's part of a push; no other queue is touched. */
    method PushNode(id: uint64, q: StreamInput, value: Value, isEnd: bool)
      requires Valid() && id in queues && queues[id] == q
      modifies q, q.nodes
      ensures q.Valid() && q.Contents() == old(q.Contents()) + [if isEnd then End else Chunk(value)]
      ensures |q.nodes| == |old(q.nodes)| + 1 && q.nodes[..|old(q.nodes)|] == old(q.nodes) && fresh(q.nodes[|old(q.nodes)|])
      ensures forall k :: k in queues && k != id ==>
        queues[k].Valid() && queues[k].nodes == old(queues[k].nodes) && queues[k].Contents() == old(queues[k].Contents())
    {
      assert forall k :: k in queues && k != id ==> queues[k].id != q.id && Apart(queues[k], q);
      q.Push(value, isEnd);
      OthersKept(id);
    }

    /** The push, on all queues. */
    method PushInto(id: uint64, q: StreamInput, value: Value, isEnd: bool)
      requires Valid() && id in queues && queues[id] == q
      modifies this`repr, q, q.nodes
      ensures Separate(queues, repr) && old(repr) <= repr && fresh(repr - old(repr))
      ensures View(queues, repr) == old(View(queues, repr))[id := old(View(queues, repr))[id] + [if isEnd then End else Chunk(value)]]
    {
      hide StreamInput.Valid, StreamInput.Contents, Indexes, Separate, View, NodesOf, Partition;
      ghost var was, view, held := NodesOf(queues), View(queues, repr), repr;
      WasPartition(queues, repr);
      QueueHeld(queues, repr, id);
      PushNode(id, q, value, isEnd);
      ghost var node := q.nodes[|q.nodes| - 1];
      Appended(q.nodes, was[id], node, held);
      repr := repr + {node};
      StillSeparate(queues, repr, was, held, view, id);
    }

    /** `conn_find_input`: the queue under the id, if any. */
    method Find(id: uint64) returns (q: StreamInput?)
      requires Valid()
      ensures q == null <==> id !in queues
      ensures q != null ==> queues[id] == q
    {
      hide Lookup, Distinct, Separate;
      q := table.Find(id);
    }

    /** `conn_find_input` followed by `stream_input_push`: the item goes to the end of that queue, and a miss changes nothing. */
    method Push(id: uint64, value: Value, isEnd: bool) returns (found: bool)
      requires Valid()
      modifies this, repr
      ensures Valid() && fresh(repr - old(repr)) && queues == old(queues)
      ensures found <==> id in queues
      ensures Contents() == if found then old(Contents())[id := old(Contents())[id] + [if isEnd then End else Chunk(value)]] else old(Contents())
    {
      hide Indexes, Separate, View, StreamInput.Valid, StreamInput.Contents;
      var q := Find(id);
      found := q != null;
      if found {
        QueueHeld(queues, repr, id);
        ghost var es := table.Entries();
        PushInto(id, q, value, isEnd);
        assert table.Entries() == es;
      }
    }

    /** The queue's part of a receive. */
    method TakeNode(id: uint64, q: StreamInput) returns (item: Option<Item>)
      requires Valid() && id in queues && queues[id] == q
      modifies q
      ensures q.Valid() && (item.None? <==> old(q.Contents()) == [])
      ensures item.None? ==> q.Contents() == [] && q.nodes == old(q.nodes)
      ensures item.Some? ==> old(q.Contents()) == [item.value] + q.Contents() && q.nodes == old(q.nodes)[1..]
      ensures forall k :: k in queues && k != id ==>
        queues[k].Valid() && queues[k].nodes == old(queues[k].nodes) && queues[k].Contents() == old(queues[k].Contents())
    {
      assert forall k :: k in queues && k != id ==> queues[k].id != q.id;
      assert |q.Contents()| == |q.nodes|;
      item := q.Recv();
      OthersKept(id);
    }

    /** The receive, on all queues. */
    method TakeFrom(id: uint64, q: StreamInput) returns (item: Option<Item>)
      requires Valid() && id in queues && queues[id] == q
      modifies q
      ensures Separate(queues, repr) && View(queues, repr) == old(View(queues, repr))[id := Rest(old(View(queues, repr))[id])]
      ensures item == First(old(View(queues, repr))[id])
    {
      hide StreamInput.Valid, StreamInput.Contents, Indexes, Separate, View, NodesOf, Partition;
      ghost var was, view, items := NodesOf(queues), View(queues, repr), q.Contents();
      WasPartition(queues, repr);
      QueueHeld(queues, repr, id);
      item := TakeNode(id, q);
      StillSeparate(queues, repr, was, repr, view, id);
      FirstAndRest(items, item, q.Contents());
    }

    /** `stream_input_recv` on the queue a handler thread looked up: the first item, or a wait with nothing changed. */
    method Recv(id: uint64, q: StreamInput) returns (item: Option<Item>)
      requires Valid() && id in queues && queues[id] == q && q in repr && id in Contents()
      modifies q
      ensures Valid() && queues == old(queues) && repr == old(repr)
      ensures item == First(old(Contents())[id])
      ensures Contents() == old(Contents())[id := Rest(old(Contents())[id])]
    {
      hide Indexes, Separate, View, StreamInput.Valid, StreamInput.Contents;
      ghost var es := table.Entries();
      item := TakeFrom(id, q);
      assert table.Entries() == es;
    }

    /** The table's part of a removal. */
    method TakeEntry(id: uint64) returns (gone: StreamInput?)
      requires Valid()
      modifies table`count, table.inputs
      ensures table.Valid() && Indexes(table.Entries(), queues - {id})
      ensures gone == null <==> id !in queues
      ensures gone != null ==> queues[id] == gone
    {
      hide Separate;
      ghost var es := table.Entries();
      gone := table.Remove(id);
      hide Lookup, Distinct, SwapRemove;
      IndexRemove(es, queues, id);
    }

    /** `conn_remove_input`: the entry goes and its queued chunks are freed; a miss changes nothing. */
    method Remove(id: uint64) returns (freed: seq<Value>)
      requires Valid()
      modifies this`queues, table`count, table.inputs
      ensures Valid() && repr == old(repr)
      ensures Contents() == old(Contents()) - {id}
      ensures freed == if id in old(Contents()) then Chunks(old(Contents())[id]) else []
    {
      hide Indexes, Separate, View, StreamInput.Valid, StreamInput.Contents;
      ViewKeys(queues, repr);
      freed := [];
      var gone := TakeEntry(id);
      if gone != null {
        QueueHeld(queues, repr, id);
        freed := FreeQueue(id, gone);
      }
      SeparateRemove(queues, repr, id);
      queues := queues - {id};
    }

    /** The loop after the last read (c/src/server.c:632-638): every registered queue gets an end mark. */
    method CloseAll()
      requires Valid()
      modifies this, repr
      ensures Valid() && queues == old(queues) && fresh(repr - old(repr))
      ensures Contents() == map id | id in old(Contents()) :: old(Contents())[id] + [End]
    {
      hide Indexes, Separate, View, StreamInput.Valid, StreamInput.Contents, Ended;
      ghost var es, view := table.Entries(), View(queues, repr);
      ViewKeys(queues, repr);
      EndedAll(view, queues, es);
      var i := 0;
      while i < table.count
        invariant 0 <= i <= table.count && Valid() && queues == old(queues) && fresh(repr - old(repr))
        invariant table.Entries() == es && View(queues, repr) == Ended(view, es, i)
      {
        var q := table.inputs[i];
        assert es[i] == q;
        EndedStep(view, queues, es, i);
        QueueHeld(queues, repr, q.id);
        PushInto(q.id, q, Null, true);
        i := i + 1;
      }
      assert i == |es|;
    }

    /** `stream_input_free`. */
    method FreeQueue(id: uint64, q: StreamInput) returns (freed: seq<Value>)
      requires Separate(queues, repr) && id in queues && queues[id] == q && id in View(queues, repr)
      ensures freed == Chunks(View(queues, repr)[id])
    {
      hide Chunks;
      freed := q.Free();
    }
  }

  /** Every queue with an end mark after it, as far as the closing loop has come. */
  function Ended(view: map<uint64, seq<Item>>, es: seq<StreamInput>, n: nat): map<uint64, seq<Item>> {
    map id | id in view :: view[id] + if IndexOf(es, id) < n then [End] else []
  }

  lemma {:induction false} EndedStep(view: map<uint64, seq<Item>>, qs: Queues, es: seq<StreamInput>, n: nat)
    requires Indexes(es, qs) && view.Keys == qs.Keys && n < |es|
    ensures es[n].id in qs && qs[es[n].id] == es[n]
    ensures Ended(view, es, n + 1) == Ended(view, es, n)[es[n].id := Ended(view, es, n)[es[n].id] + [End]]
  {
    LookupUnique(es, n);
    var k := es[n].id;
    assert IndexOf(es, k) == n && qs[k] == es[n];
    forall id | id in view && id != k ensures IndexOf(es, id) < n + 1 <==> IndexOf(es, id) < n {
    }
    hide Indexes, Lookup, Distinct, IndexOf;
    assert view[k] + [] == view[k];
  }

  lemma {:induction false} EndedAll(view: map<uint64, seq<Item>>, qs: Queues, es: seq<StreamInput>)
    requires Indexes(es, qs) && view.Keys == qs.Keys
    ensures Ended(view, es, 0) == view
    ensures Ended(view, es, |es|) == map id | id in view :: view[id] + [End]
  {
    forall id | id in view ensures IndexOf(es, id) < |es| && view[id] + [] == view[id] { assert Lookup(es, id) == Some(qs[id]); }
  }

  function First(items: seq<Item>): Option<Item> {
    if items == [] then None else Some(items[0])
  }

  function Rest(items: seq<Item>): seq<Item> {
    if items == [] then [] else items[1..]
  }

  lemma {:induction false} FirstAndRest(items: seq<Item>, item: Option<Item>, left: seq<Item>)
    requires item.None? <==> items == []
    requires item.None? ==> left == []
    requires item.Some? ==> items == [item.value] + left
    ensures item == First(items) && left == Rest(items)
  {
  }

  lemma {:induction false} ViewKeys(qs: Queues, repr: set<object>)
    requires Separate(qs, repr)
    ensures View(qs, repr).Keys == qs.Keys
  {
    hide StreamInput.Valid, StreamInput.Contents;
  }

  lemma {:induction false} Appended(now: seq<ChunkNode>, was: seq<ChunkNode>, node: ChunkNode, held: set<object>)
    requires |now| == |was| + 1 && now[..|was|] == was && now[|was|] == node && node !in held
    requires forall n :: n in was ==> n in held
    ensures From(now, was, held)
    ensures forall n :: n in now ==> n in held + {node}
  {
    assert now == was + [node];
  }
}
